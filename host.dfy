/**
 * The host framework as the two Atom plugins see it: PHP's reading of option
 * arrays, the view object they share, the feed URL object, and the host
 * collaborators whose internals this model leaves uninterpreted (the style
 * plugin's field accessor, URL rendering and token substitution).
 */
module Host {

  datatype Option<T> = None | Some(value: T)

  /** Reading `$options[$key]`: a key that was never declared reads as PHP null. */
  function Lookup(m: map<string, string>, key: string): (r: Option<string>)
    ensures r.Some? <==> key in m
    ensures r.Some? ==> r.value == m[key]
  {
    if key in m then Some(m[key]) else None
  }

  /** PHP `empty()` on a value that is a string or null: true for null, "" and "0". */
  predicate IsEmpty(v: Option<string>)
  {
    match v
    case None => true
    case Some(s) => s == "" || s == "0"
  }

  /** The style plugin's `getField($index, $field_id)`: the rendered value of a field in a row. */
  type FieldAccessor = (nat, string) -> string

  /** `Url::toString()` of a URL with the given path and options. */
  type UrlRenderer = (string, UrlOptions) -> string

  /** `tokenizeValue($value, $row_index)`: token substitution against one result row. */
  type Tokenizer = (string, nat) -> string

  /** One row of the view's result; opaque to both plugins. */
  datatype ResultRow = ResultRow(fields: map<string, string>)

  /** One entry of `$view->feedIcons`. */
  datatype FeedIcon = FeedIcon(theme: string, url: string, title: string)

  /** The options array given to `Url::setOptions()`; `query` is absent when None. */
  datatype UrlOptions = UrlOptions(query: Option<map<string, string>>, absolute: bool)

  /** A `Drupal\Core\Url`: `setOptions()` replaces its options in place. */
  class Url {
    const path: string
    var options: UrlOptions

    constructor (path: string, options: UrlOptions)
      ensures this.path == path && this.options == options
    {
      this.path := path;
      this.options := options;
    }
  }

  /** The parts of the view object that the two plugins read or write. */
  class View {
    /** `$view->style_plugin`: None when it is empty or not an object. */
    var stylePlugin: Option<FieldAccessor>
    /** `$view->result`, keyed 0, 1, ... in result order. */
    var result: seq<ResultRow>
    /** `$view->row_index`: None when unset. */
    var rowIndex: Option<nat>
    /** `$view->feedIcons`. */
    var feedIcons: seq<FeedIcon>
    /** What `$view->getExposedInput()` returns. */
    var exposedInput: map<string, string>

    constructor (stylePlugin: Option<FieldAccessor>, result: seq<ResultRow>, exposedInput: map<string, string>)
      ensures this.stylePlugin == stylePlugin && this.result == result
      ensures this.exposedInput == exposedInput
      ensures rowIndex == None && feedIcons == []
    {
      this.stylePlugin := stylePlugin;
      this.result := result;
      this.exposedInput := exposedInput;
      rowIndex := None;
      feedIcons := [];
    }
  }
}
