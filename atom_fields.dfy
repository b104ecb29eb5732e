/**
 * The `atom_fields` row plugin: maps the fields bound in its options onto
 * the elements of one Atom entry (RFC 4287, section 4.1.2), reading each
 * field through the view's style plugin at the position kept by a counter
 * that persists across calls.
 */
module AtomFieldsRow {
  import opened Host

  // The eight field-binding options the plugin declares.
  const IdField := "id_field"
  const TitleField := "title_field"
  const UpdatedDateField := "updated_date_field"
  const LinkField := "link_field"
  const ContentField := "content_field"
  const AuthorName := "author_name"
  const AuthorLink := "author_link"
  const PublishedDateField := "published_date_field"

  // The keys render() reads for the author bindings. They differ from the
  // declared `author_name` / `author_link`, so they hold a value only when the
  // stored configuration sets them.
  const AuthorNameField := "author_name_field"
  const AuthorLinkField := "author_link_field"

  const DeclaredOptions: set<string> :=
    {IdField, TitleField, UpdatedDateField, LinkField, ContentField, AuthorName, AuthorLink, PublishedDateField}

  /** The bindings RFC 4287 section 4.1.2 makes mandatory, in the order validate() checks them. */
  const RequiredOptions: seq<string> := [IdField, TitleField, UpdatedDateField]

  const RequiredMessage := "Row style plugin requires specifying which views fields to use for Atom item."

  /** The URN namespace of RFC 4122 that every entry id is prefixed with. */
  const UrnPrefix := "urn:uuid:"

  /** The `$item` object render() fills in. */
  datatype AtomItem = AtomItem(
    id: string,
    title: string,
    linkSelf: bool,
    linkAlternateHtml: string,
    content: string,
    published: string,
    updated: string,
    authorName: string,
    authorLink: string)

  /** The render array render() returns, without its `#theme` and `#view` keys. */
  datatype RowBuild = RowBuild(options: map<string, string>, row: AtomItem, fieldAlias: string)

  /** defineOptions(): the parent's option defaults plus the eight bindings, each defaulting to "". */
  function DefineOptions(parent: map<string, string>): (r: map<string, string>)
    ensures r.Keys == parent.Keys + DeclaredOptions
    ensures forall k :: k in DeclaredOptions ==> r[k] == ""
    ensures forall k :: k in parent && k !in DeclaredOptions ==> r[k] == parent[k]
  {
    parent[IdField := ""][TitleField := ""][UpdatedDateField := ""][LinkField := ""]
          [ContentField := ""][AuthorName := ""][AuthorLink := ""][PublishedDateField := ""]
  }

  /** Whether validate() finds one of the mandatory bindings PHP-empty. */
  predicate RequiredMissing(options: map<string, string>)
  {
    exists i :: 0 <= i < |RequiredOptions| && IsEmpty(Lookup(options, RequiredOptions[i]))
  }

  /**
   * getField(): "" when the view has no usable style plugin or the field id is
   * PHP-empty, without consulting the accessor; otherwise the accessor's value.
   */
  function GetField(stylePlugin: Option<FieldAccessor>, index: nat, fieldId: Option<string>): (r: string)
    ensures stylePlugin.None? || IsEmpty(fieldId) ==> r == ""
    ensures stylePlugin.Some? && !IsEmpty(fieldId) ==> r == stylePlugin.value(index, fieldId.value)
  {
    if stylePlugin.None? || IsEmpty(fieldId) then "" else stylePlugin.value(index, fieldId.value)
  }

  /** The value of the field bound under option `key`, read at `index`. */
  function Bound(stylePlugin: Option<FieldAccessor>, options: map<string, string>, index: nat, key: string): string
  {
    GetField(stylePlugin, index, Lookup(options, key))
  }

  /** The entry render() builds when its counter stands at `index`. */
  function ItemAt(stylePlugin: Option<FieldAccessor>, options: map<string, string>, index: nat): AtomItem
  {
    AtomItem(
      id := UrnPrefix + Bound(stylePlugin, options, index, IdField),
      title := Bound(stylePlugin, options, index, TitleField),
      linkSelf := false,
      linkAlternateHtml := Bound(stylePlugin, options, index, LinkField),
      content := Bound(stylePlugin, options, index, ContentField),
      published := Bound(stylePlugin, options, index, PublishedDateField),
      updated := Bound(stylePlugin, options, index, UpdatedDateField),
      authorName := Bound(stylePlugin, options, index, AuthorNameField),
      authorLink := Bound(stylePlugin, options, index, AuthorLinkField))
  }

  /** `isset($this->field_alias) ? $this->field_alias : ''`. */
  function AliasOrEmpty(fieldAlias: Option<string>): string
  {
    if fieldAlias.Some? then fieldAlias.value else ""
  }

  /** The build render() returns when its counter stands at `index`. */
  function RowBuildAt(stylePlugin: Option<FieldAccessor>, options: map<string, string>, fieldAlias: Option<string>, index: nat): RowBuild
  {
    RowBuild(options, ItemAt(stylePlugin, options, index), AliasOrEmpty(fieldAlias))
  }

  /** The builds of `n` consecutive render() calls whose counter starts at `start`. */
  function PassRows(stylePlugin: Option<FieldAccessor>, options: map<string, string>, fieldAlias: Option<string>,
                    start: nat, n: nat): seq<RowBuild>
  {
    seq(n, k requires 0 <= k < n => RowBuildAt(stylePlugin, options, fieldAlias, start + k))
  }

  /** The value of the static counter on entry to render(): an unset counter starts at 0. */
  function Counter(rowIndex: Option<nat>): nat
  {
    if rowIndex.None? then 0 else rowIndex.value
  }

  class AtomFields {
    /** `$this->view`. */
    const view: View
    /** `$this->options`. */
    var options: map<string, string>
    /** `$this->field_alias`: None when unset. */
    var fieldAlias: Option<string>
    /** The function-static `$row_index` of render(): None until its first call. */
    var rowIndex: Option<nat>

    /** The plugin as the host initialises it: declared defaults overridden by the stored configuration. */
    constructor (view: View, parentDefaults: map<string, string>, stored: map<string, string>, fieldAlias: Option<string>)
      ensures this.view == view && options == DefineOptions(parentDefaults) + stored
      ensures this.fieldAlias == fieldAlias && rowIndex == None
    {
      this.view := view;
      options := DefineOptions(parentDefaults) + stored;
      this.fieldAlias := fieldAlias;
      rowIndex := None;
    }

    /**
     * validate(): the parent's errors, followed by exactly one error when any
     * mandatory binding is PHP-empty, and by none when all three are set.
     */
    method Validate(parentErrors: seq<string>) returns (errors: seq<string>)
      ensures errors == parentErrors + (if RequiredMissing(options) then [RequiredMessage] else [])
    {
      errors := parentErrors;
      var i := 0;
      while i < |RequiredOptions|
        invariant 0 <= i <= |RequiredOptions|
        invariant errors == parentErrors
        invariant forall j :: 0 <= j < i ==> !IsEmpty(Lookup(options, RequiredOptions[j]))
      {
        if IsEmpty(Lookup(options, RequiredOptions[i])) {
          errors := errors + [RequiredMessage];
          break;
        }
        i := i + 1;
      }
    }

    /**
     * render($row): reads every bound field at the counter's current value
     * (0 on the very first call), then advances the counter by one. The row
     * argument itself is not consulted. `seen` is the view's row index as this
     * call finds it, which helpers on the host side may depend on.
     */
    method Render(row: ResultRow) returns (b: RowBuild, ghost seen: Option<nat>)
      modifies this`rowIndex
      ensures seen == view.rowIndex
      ensures rowIndex == Some(Counter(old(rowIndex)) + 1)
      ensures b == RowBuildAt(view.stylePlugin, options, fieldAlias, Counter(old(rowIndex)))
    {
      seen := view.rowIndex;
      if rowIndex.None? {
        rowIndex := Some(0);
      }
      var index := rowIndex.value;
      var item := AtomItem(
        id := UrnPrefix + GetField(view.stylePlugin, index, Lookup(options, IdField)),
        title := GetField(view.stylePlugin, index, Lookup(options, TitleField)),
        linkSelf := false,
        linkAlternateHtml := GetField(view.stylePlugin, index, Lookup(options, LinkField)),
        content := GetField(view.stylePlugin, index, Lookup(options, ContentField)),
        published := GetField(view.stylePlugin, index, Lookup(options, PublishedDateField)),
        updated := GetField(view.stylePlugin, index, Lookup(options, UpdatedDateField)),
        authorName := GetField(view.stylePlugin, index, Lookup(options, AuthorNameField)),
        authorLink := GetField(view.stylePlugin, index, Lookup(options, AuthorLinkField)));
      rowIndex := Some(index + 1);
      b := RowBuild(options, item, if fieldAlias.Some? then fieldAlias.value else "");
    }
  }

  /** Only the three mandatory bindings decide validation, and an empty one among them suffices. */
  lemma RequiredMissingIff(options: map<string, string>)
    ensures RequiredMissing(options) <==>
      IsEmpty(Lookup(options, IdField)) || IsEmpty(Lookup(options, TitleField))
      || IsEmpty(Lookup(options, UpdatedDateField))
  {
    if IsEmpty(Lookup(options, IdField)) {
      assert IsEmpty(Lookup(options, RequiredOptions[0]));
    } else if IsEmpty(Lookup(options, TitleField)) {
      assert IsEmpty(Lookup(options, RequiredOptions[1]));
    } else if IsEmpty(Lookup(options, UpdatedDateField)) {
      assert IsEmpty(Lookup(options, RequiredOptions[2]));
    }
  }

  /** Rebinding an optional field never changes the outcome of validate(). */
  lemma OptionalBindingsDoNotAffectValidation(options: map<string, string>, key: string, value: string)
    requires key !in RequiredOptions
    ensures RequiredMissing(options[key := value]) <==> RequiredMissing(options)
  {
    RequiredMissingIff(options);
    RequiredMissingIff(options[key := value]);
  }

  /** With the declared defaults alone the mandatory bindings are "", so validate() reports its error. */
  lemma DefaultsFailValidation(parent: map<string, string>)
    ensures RequiredMissing(DefineOptions(parent))
  {
    assert IsEmpty(Lookup(DefineOptions(parent), RequiredOptions[0]));
  }

  /** The entry id is the URN prefix followed by the resolved id value, which can be recovered from it. */
  lemma IdIsUrn(stylePlugin: Option<FieldAccessor>, options: map<string, string>, index: nat)
    ensures var item := ItemAt(stylePlugin, options, index);
      && UrnPrefix <= item.id
      && item.id[|UrnPrefix|..] == GetField(stylePlugin, index, Lookup(options, IdField))
      && !item.linkSelf
  {
  }

  /** Every field of one entry is read at the same position: accessors that agree there give the same entry. */
  lemma ItemReadsOneIndex(f: FieldAccessor, g: FieldAccessor, options: map<string, string>, index: nat)
    requires forall fieldId :: f(index, fieldId) == g(index, fieldId)
    ensures ItemAt(Some(f), options, index) == ItemAt(Some(g), options, index)
  {
  }

  /**
   * The declared `author_name` and `author_link` options are never read:
   * setting them leaves every entry as it was.
   */
  lemma DeclaredAuthorOptionsUnused(stylePlugin: Option<FieldAccessor>, options: map<string, string>, index: nat,
                                    name: string, link: string)
    ensures ItemAt(stylePlugin, options[AuthorName := name][AuthorLink := link], index) == ItemAt(stylePlugin, options, index)
  {
  }

  /**
   * With the declared defaults, every entry is blank but for the bare URN
   * prefix; in particular both author fields are "".
   */
  lemma DefaultItemIsBlank(stylePlugin: Option<FieldAccessor>, parent: map<string, string>, index: nat)
    requires AuthorNameField !in parent && AuthorLinkField !in parent
    ensures ItemAt(stylePlugin, DefineOptions(parent), index) == AtomItem(UrnPrefix, "", false, "", "", "", "", "", "")
  {
  }

  /**
   * The counter is never reset: a pass of `n` calls followed by a pass of `m`
   * calls reads the same positions as one pass of `n + m` calls.
   */
  lemma PassesContinueCounter(stylePlugin: Option<FieldAccessor>, options: map<string, string>, fieldAlias: Option<string>,
                              start: nat, n: nat, m: nat)
    ensures PassRows(stylePlugin, options, fieldAlias, start, n) + PassRows(stylePlugin, options, fieldAlias, start + n, m)
         == PassRows(stylePlugin, options, fieldAlias, start, n + m)
  {
    var first := PassRows(stylePlugin, options, fieldAlias, start, n);
    var second := PassRows(stylePlugin, options, fieldAlias, start + n, m);
    var whole := PassRows(stylePlugin, options, fieldAlias, start, n + m);
    forall k | 0 <= k < n + m
      ensures (first + second)[k] == whole[k]
    {
      if k >= n {
        assert (first + second)[k] == second[k - n];
      }
    }
  }
}
