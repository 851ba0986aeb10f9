/** The GitHub Gist widget: a text field for a gist URL, the URL check that
    turns it into the widget's `url` attribute, and the choice of what the
    widget renders. The URL parser (the `URL` class of the WHATWG URL
    Standard) is a parameter; `setAttributes` and `removeSelf` belong to the
    editor's widget host and are recorded as calls. */
module GitHubGist {
  import opened Wrappers

  const GistHost := "gist.github.com"
  const UrlKey := "url"
  /** `KeyboardEvent.which` of the Enter key. */
  const EnterKey := 13

  /** The parts of a parsed URL the widget reads (WHATWG URL Standard, section 6.1). */
  datatype UrlRecord = UrlRecord(href: string, protocol: string, host: string, origin: string,
                                 pathname: string, search: string, hash: string)

  /** How the parts of a URL relate when its scheme is http, https, ws, wss or
      ftp, it has no user name or password, and it has no bare `?` or `#` (a
      query or fragment that is present but empty): the origin is scheme and
      host, and the serialisation is origin, path, query and fragment in that
      order. Other URLs need not satisfy it: a URL with credentials carries
      them in `href`, a bare `?` or `#` stays in `href` while `search` or
      `hash` is "", a `file:` URL's origin is left to the browser, and any
      other scheme has the opaque origin "null". */
  predicate Consistent(u: UrlRecord) {
    && u.origin == u.protocol + "//" + u.host
    && u.href == u.origin + u.pathname + u.search + u.hash
  }

  /** The attributes `setGistURL` hands to `setAttributes` for a typed URL,
      or None when it hands nothing (the URL does not parse, or its host is
      another one). */
  function GistAttributes(parse: string -> Option<UrlRecord>, text: string): (r: Option<map<string, string>>)
    ensures r.Some? <==> parse(text).Some? && parse(text).value.host == GistHost
    ensures r.Some? ==> r.value.Keys == {UrlKey}
    ensures r.Some? ==> r.value[UrlKey] == parse(text).value.origin + parse(text).value.pathname
  {
    match parse(text)
    case None => None
    case Some(location) =>
      if location.host != GistHost then None
      else Some(map[UrlKey := location.origin + location.pathname])
  }

  /** An accepted URL keeps its scheme, the gist host and its path, and loses
      exactly its query and fragment. */
  lemma GistAttributesDropQueryAndFragment(parse: string -> Option<UrlRecord>, text: string)
    requires parse(text).Some? && Consistent(parse(text).value)
    requires GistAttributes(parse, text).Some?
    ensures var u := parse(text).value;
      var v := GistAttributes(parse, text).value[UrlKey];
      && v == u.protocol + "//" + GistHost + u.pathname
      && v + u.search + u.hash == u.href
  {
  }

  /** Two URLs that differ only in query and fragment give the same attributes. */
  lemma GistAttributesIgnoreQueryAndFragment(parse: string -> Option<UrlRecord>, a: string, b: string)
    requires parse(a).Some? && parse(b).Some?
    requires parse(a).value.(search := "", hash := "", href := "") == parse(b).value.(search := "", hash := "", href := "")
    ensures GistAttributes(parse, a) == GistAttributes(parse, b)
  {
    assert parse(a).value.host == parse(b).value.host;
    assert parse(a).value.origin == parse(b).value.origin;
    assert parse(a).value.pathname == parse(b).value.pathname;
  }

  /** The host comparison is exact: a host with a port, or any subdomain of
      the gist host, is rejected. */
  lemma GistHostIsExact(parse: string -> Option<UrlRecord>, text: string, suffix: string, prefix: string)
    requires parse(text).Some?
    requires (suffix != "" && parse(text).value.host == GistHost + suffix)
          || (prefix != "" && parse(text).value.host == prefix + GistHost)
    ensures GistAttributes(parse, text).None?
  {
    assert |parse(text).value.host| > |GistHost|;
  }

  /** The host is the only part checked: a URL with a non-special scheme on the
      gist host, whose origin is the opaque "null", is accepted and stored as
      "null" followed by its path. */
  lemma OpaqueOriginAccepted(parse: string -> Option<UrlRecord>, text: string)
    requires parse(text).Some? && parse(text).value.host == GistHost && parse(text).value.origin == "null"
    ensures GistAttributes(parse, text) == Some(map[UrlKey := "null" + parse(text).value.pathname])
  {
  }

  /** What the widget renders. */
  datatype View =
    | GistEmbed(url: string, deleteControl: bool)  // the embedded gist
    | Empty                                         // nothing at all
    | ConfigCard                                    // the URL form, which has a delete control

  /** `attributes["url"]` is truthy. */
  predicate HasUrl(attributes: map<string, string>) {
    UrlKey in attributes && attributes[UrlKey] != ""
  }

  predicate HasDeleteControl(v: View) {
    match v
    case GistEmbed(_, deleteControl) => deleteControl
    case Empty => false
    case ConfigCard => true
  }

  /** The render branching of the widget component. */
  function RenderView(attributes: map<string, string>, isPreview: bool): (v: View)
    ensures v.GistEmbed? <==> HasUrl(attributes)
    ensures v.GistEmbed? ==> v.url == attributes[UrlKey]
    ensures v.Empty? <==> !HasUrl(attributes) && isPreview
    ensures v.ConfigCard? <==> !HasUrl(attributes) && !isPreview
  {
    if UrlKey in attributes && attributes[UrlKey] != "" then GistEmbed(attributes[UrlKey], !isPreview)
    else if isPreview then Empty
    else ConfigCard
  }

  /** Every view but the empty one offers deletion exactly outside preview mode. */
  lemma DeleteControlOutsidePreview(attributes: map<string, string>, isPreview: bool)
    ensures HasDeleteControl(RenderView(attributes, isPreview)) <==> !isPreview
    ensures RenderView(attributes, isPreview).Empty? ==> isPreview
  {
  }

  /** A widget configured by an accepted URL renders that gist. */
  lemma AcceptedUrlIsEmbedded(parse: string -> Option<UrlRecord>, text: string, isPreview: bool)
    requires parse(text).Some? && parse(text).value.origin != ""
    requires GistAttributes(parse, text).Some?
    ensures var a := GistAttributes(parse, text).value;
      RenderView(a, isPreview) == GistEmbed(a[UrlKey], !isPreview)
  {
  }

  /** One rendering of the widget: its props, its URL text buffer, and the
      calls it has made to the host. */
  class GistWidget {
    const attributes: map<string, string>
    const isPreview: bool
    /** `new URL(text)`: None where the constructor throws. */
    const parse: string -> Option<UrlRecord>
    /** The text field's buffer (`url` state). */
    var url: string
    /** The arguments of every `setAttributes` call, oldest first. */
    var setAttributesCalls: seq<map<string, string>>
    /** The number of `removeSelf` calls. */
    var removeSelfCalls: nat

    /** Every attribute set handed to the host holds exactly the `url` key. */
    ghost predicate Valid()
      reads this
    {
      forall i :: 0 <= i < |setAttributesCalls| ==> setAttributesCalls[i].Keys == {UrlKey}
    }

    function View(): View {
      RenderView(attributes, isPreview)
    }

    constructor (attributes: map<string, string>, isPreview: bool, parse: string -> Option<UrlRecord>)
      ensures Valid()
      ensures this.attributes == attributes && this.isPreview == isPreview && this.parse == parse
      ensures url == "" && setAttributesCalls == [] && removeSelfCalls == 0
    {
      this.attributes := attributes;
      this.isPreview := isPreview;
      this.parse := parse;
      url := "";
      setAttributesCalls := [];
      removeSelfCalls := 0;
    }

    /** `setGistURL`: one `setAttributes` call for an accepted URL, none otherwise. */
    method SetGistUrl(text: string)
      requires Valid()
      modifies this`setAttributesCalls
      ensures Valid()
      ensures GistAttributes(parse, text).Some? ==> setAttributesCalls == old(setAttributesCalls) + [GistAttributes(parse, text).value]
      ensures GistAttributes(parse, text).None? ==> setAttributesCalls == old(setAttributesCalls)
    {
      var location := parse(text);
      if location.Some? {
        if location.value.host != GistHost {
          return;
        } else {
          setAttributesCalls := setAttributesCalls + [map[UrlKey := location.value.origin + location.value.pathname]];
        }
      }
    }

    /** The text field's change handler, on the configuration card. */
    method OnChange(text: string)
      requires View().ConfigCard?
      modifies this`url
      ensures url == text
    {
      url := text;
    }

    /** The text field's key-up handler: Enter submits the buffered text, any
        other key does nothing. */
    method OnKeyUp(which: int)
      requires Valid() && View().ConfigCard?
      modifies this`setAttributesCalls
      ensures Valid()
      ensures which == EnterKey && GistAttributes(parse, url).Some? ==> setAttributesCalls == old(setAttributesCalls) + [GistAttributes(parse, url).value]
      ensures which != EnterKey || GistAttributes(parse, url).None? ==> setAttributesCalls == old(setAttributesCalls)
    {
      if which == 13 {
        SetGistUrl(url);
      }
    }

    /** Either delete control asks the host to remove the widget. */
    method ClickDelete()
      requires HasDeleteControl(View())
      modifies this`removeSelfCalls
      ensures removeSelfCalls == old(removeSelfCalls) + 1
    {
      removeSelfCalls := removeSelfCalls + 1;
    }
  }

  /** Typing a URL and pressing Enter hands the host the normalised URL, and
      no other key submits it. */
  method TypeAndSubmit(w: GistWidget, text: string, which: int)
    requires w.Valid() && w.View().ConfigCard?
    modifies w`url, w`setAttributesCalls
    ensures w.Valid() && w.url == text
    ensures w.setAttributesCalls == old(w.setAttributesCalls) +
      (if which == EnterKey && GistAttributes(w.parse, text).Some? then [GistAttributes(w.parse, text).value] else [])
    ensures (which == EnterKey && GistAttributes(w.parse, text).Some?) <==> |w.setAttributesCalls| == |old(w.setAttributesCalls)| + 1
  {
    w.OnChange(text);
    w.OnKeyUp(which);
  }
}
