/**
 * The `atom` style plugin: collects the row plugin's entries for every result
 * row into the feed build, supplies the feed-level description and updated
 * date, and advertises the feed on the page it is attached to.
 */
module AtomStyle {
  import opened Host
  import AtomFieldsRow

  const Description := "description"

  /** The (untranslated) title of the alternate head link; the typo is the source's own. */
  const AlternateLinkTitle := "This content is also avalaible as an Atom feed"

  /** One `<link>` of `$build['#attached']['html_head_link']`. */
  datatype HeadLink = HeadLink(rel: string, mimeType: string, title: string, href: string)

  /** The page build attachTo() adds to; only its head links are modelled. */
  datatype PageBuild = PageBuild(htmlHeadLinks: seq<seq<HeadLink>>)

  /** What render() returns: `[]` without a row plugin, else the rows and the style options. */
  datatype FeedBuild = NoFeed | Feed(options: map<string, string>, rows: seq<AtomFieldsRow.RowBuild>)

  /** defineOptions(): the parent's option defaults plus `description`, defaulting to "". */
  function DefineOptions(parent: map<string, string>): (r: map<string, string>)
    ensures r.Keys == parent.Keys + {Description}
    ensures r[Description] == ""
    ensures forall k :: k in parent && k != Description ==> r[k] == parent[k]
  {
    parent[Description := ""]
  }

  /**
   * The URL options attachTo() passes to `setOptions()`: always absolute, and
   * carrying the exposed input as query exactly when that input is non-empty.
   */
  function FeedUrlOptions(input: map<string, string>): (o: UrlOptions)
    ensures o.absolute
    ensures o.query.Some? <==> input != map[]
    ensures o.query.Some? ==> o.query.value == input
  {
    UrlOptions(if input != map[] then Some(input) else None, true)
  }

  class Atom {
    /** `$this->view`. */
    const view: View
    /** `$this->view->rowPlugin`: null when the view has no row plugin. */
    var rowPlugin: AtomFieldsRow.AtomFields?
    /** `$this->options`. */
    var options: map<string, string>

    /** The plugin as the host initialises it: declared defaults overridden by the stored configuration. */
    constructor (view: View, rowPlugin: AtomFieldsRow.AtomFields?, parentDefaults: map<string, string>, stored: map<string, string>)
      ensures this.view == view && this.rowPlugin == rowPlugin
      ensures options == DefineOptions(parentDefaults) + stored
    {
      this.view := view;
      this.rowPlugin := rowPlugin;
      options := DefineOptions(parentDefaults) + stored;
    }

    /**
     * attachTo(): sets the feed URL's options, then appends one feed icon and
     * one alternate Atom head link, both carrying the rendered URL, after
     * whatever icons and links were already there.
     */
    method AttachTo(build: PageBuild, displayId: string, feedUrl: Url, title: string, urlToString: UrlRenderer)
      returns (result: PageBuild)
      modifies view`feedIcons, feedUrl`options
      ensures feedUrl.options == FeedUrlOptions(view.exposedInput)
      ensures var url := urlToString(feedUrl.path, feedUrl.options);
        && view.feedIcons == old(view.feedIcons) + [FeedIcon("feed_icon", url, title)]
        && result.htmlHeadLinks
           == build.htmlHeadLinks + [[HeadLink("alternate", "application/atom+xml", AlternateLinkTitle, url)]]
    {
      var urlOptions := UrlOptions(None, false);
      var input := view.exposedInput;
      if input != map[] {
        urlOptions := urlOptions.(query := Some(input));
      }
      urlOptions := urlOptions.(absolute := true);

      feedUrl.options := urlOptions;
      var url := urlToString(feedUrl.path, feedUrl.options);

      view.feedIcons := view.feedIcons + [FeedIcon("feed_icon", url, title)];

      result := build.(htmlHeadLinks := build.htmlHeadLinks
        + [[HeadLink("alternate", "application/atom+xml", AlternateLinkTitle, url)]]);
    }

    /**
     * getDescription(): the configured description with its tokens substituted
     * against row 0, whatever the result set holds (even when it is empty).
     */
    function GetDescription(tokenize: Tokenizer): (r: string)
      reads this
      requires Description in options
      ensures r == tokenize(options[Description], 0)
    {
      tokenize(options[Description], 0)
    }

    /**
     * getUpdated(): "" for an empty result, otherwise the updated-date field of
     * the last row in result order (not the most recent date).
     */
    method GetUpdated() returns (updated: string)
      requires rowPlugin != null || view.result == []
      ensures view.result == [] ==> updated == ""
      ensures view.result != [] ==>
        updated == AtomFieldsRow.GetField(rowPlugin.view.stylePlugin, |view.result| - 1,
                                          Lookup(rowPlugin.options, AtomFieldsRow.UpdatedDateField))
    {
      var plugin := rowPlugin;
      updated := "";
      var rowIndex := 0;
      while rowIndex < |view.result|
        invariant 0 <= rowIndex <= |view.result|
        invariant rowIndex == 0 ==> updated == ""
        invariant rowIndex > 0 ==>
                    && plugin != null
                    && updated == AtomFieldsRow.GetField(plugin.view.stylePlugin, rowIndex - 1,
                                                         Lookup(plugin.options, AtomFieldsRow.UpdatedDateField))
      {
        updated := AtomFieldsRow.GetField(plugin.view.stylePlugin, rowIndex,
                                          Lookup(plugin.options, AtomFieldsRow.UpdatedDateField));
        rowIndex := rowIndex + 1;
      }
    }

    /**
     * render(): without a row plugin, an empty build and nothing else changes.
     * Otherwise one row-plugin build per result row, in result order; the view's
     * row index, as each row-plugin call finds it (`indexAtCall`), is that row's
     * key, and it is unset at the end. The row plugin's counter carries on from
     * wherever it stood.
     */
    method Render() returns (b: FeedBuild, ghost indexAtCall: seq<Option<nat>>)
      requires rowPlugin != null ==> rowPlugin.view == view
      modifies view`rowIndex, rowPlugin
      ensures rowPlugin == null ==> b == NoFeed && view.rowIndex == old(view.rowIndex) && indexAtCall == []
      ensures rowPlugin != null ==>
        && rowPlugin.options == old(rowPlugin.options)
        && rowPlugin.fieldAlias == old(rowPlugin.fieldAlias)
        && b == Feed(options, AtomFieldsRow.PassRows(rowPlugin.view.stylePlugin, rowPlugin.options, rowPlugin.fieldAlias,
                                                     AtomFieldsRow.Counter(old(rowPlugin.rowIndex)), |view.result|))
        && rowPlugin.rowIndex == (if view.result == [] then old(rowPlugin.rowIndex)
                                  else Some(AtomFieldsRow.Counter(old(rowPlugin.rowIndex)) + |view.result|))
        && indexAtCall == seq(|view.result|, k => Some(k))
        && view.rowIndex == None
    {
      indexAtCall := [];
      if rowPlugin == null {
        b := NoFeed;
        return;
      }
      var plugin := rowPlugin;
      ghost var start := AtomFieldsRow.Counter(plugin.rowIndex);
      var rows := [];
      var rowIndex := 0;
      while rowIndex < |view.result|
        invariant 0 <= rowIndex <= |view.result|
        invariant plugin.options == old(plugin.options) && plugin.fieldAlias == old(plugin.fieldAlias)
        invariant rows == AtomFieldsRow.PassRows(plugin.view.stylePlugin, plugin.options, plugin.fieldAlias, start, rowIndex)
        invariant plugin.rowIndex == (if rowIndex == 0 then old(plugin.rowIndex) else Some(start + rowIndex))
        invariant indexAtCall == seq(rowIndex, k => Some(k))
      {
        view.rowIndex := Some(rowIndex);
        var entry, seen := plugin.Render(view.result[rowIndex]);
        indexAtCall := indexAtCall + [seen];
        rows := rows + [entry];
        rowIndex := rowIndex + 1;
      }
      b := Feed(options, rows);
      view.rowIndex := None;
    }
  }

  /** With the declared default, the description is the substitution of "" against row 0. */
  lemma DefaultDescription(style: Atom, parentDefaults: map<string, string>, tokenize: Tokenizer)
    requires style.options == DefineOptions(parentDefaults)
    ensures style.GetDescription(tokenize) == tokenize("", 0)
  {
  }

  /**
   * Three rows whose updated dates are, in result order, 2020-01-01, 2023-06-01
   * and 2021-01-01: getUpdated() gives the last one, not the latest one.
   */
  method LastRowWinsExample() returns (updated: string)
    ensures updated == "2021-01-01T00:00:00Z"
    ensures updated != "2023-06-01T00:00:00Z"
  {
    var dates := ["2020-01-01T00:00:00Z", "2023-06-01T00:00:00Z", "2021-01-01T00:00:00Z"];
    var accessor := (index: nat, fieldId: string) => if index < |dates| then dates[index] else "";
    var rows := [ResultRow(map[]), ResultRow(map[]), ResultRow(map[])];
    var view := new View(Some(accessor), rows, map[]);
    var rowPlugin := new AtomFieldsRow.AtomFields(view, map[], map[AtomFieldsRow.UpdatedDateField := "changed"], None);
    var style := new Atom(view, rowPlugin, map[], map[]);
    updated := style.GetUpdated();
    assert Lookup(rowPlugin.options, AtomFieldsRow.UpdatedDateField) == Some("changed");
  }
}
