/**
 * The two view-to-model converters of the media embed editing feature: the
 * semantic one for `<oembed url="...">` (or the configured element name)
 * and the non-semantic one for `<div data-oembed-url="...">`. Whether a URL
 * is media is the registry's `hasMedia`, a parameter here.
 */
module MediaUpcast {
  import opened Wrappers

  /** A view element: its name and its attributes. */
  datatype ViewElement = ViewElement(name: string, attributes: map<string, string>)

  /** The model `media` element and its `url` attribute. */
  datatype ModelElement = Media(url: string)

  /** What a converter does with an element. */
  datatype Upcast =
    | Skipped                    // the view filter returned `null`: the converter does not take the element
    | Declined                   // the filter took it, but the model callback returned `undefined`
    | Created(element: ModelElement)

  /** The configured element name when none is given. */
  const DefaultElementName := "oembed"

  /** `element.getAttribute(key)`: the value, or `undefined`. */
  function Attribute(e: ViewElement, key: string): Option<string>
  {
    if key in e.attributes then Some(e.attributes[key]) else None
  }

  /** JavaScript truthiness of an attribute value: present and not the empty string. */
  predicate Truthy(v: Option<string>)
  {
    v.Some? && v.value != ""
  }

  /** The semantic view filter: `{ name: true }` is `true`, `null` is `false`. */
  predicate SemanticFilter(elementName: string, e: ViewElement)
  {
    (e.name == "oembed" || e.name == elementName) && Truthy(Attribute(e, "url"))
  }

  /** The semantic converter: the filter, then a `media` element when the registry has the URL. */
  function UpcastSemantic(elementName: string, hasMedia: string -> bool, e: ViewElement): Upcast
  {
    if !SemanticFilter(elementName, e) then Skipped
    else
      var url := Attribute(e, "url").value;
      if hasMedia(url) then Created(Media(url)) else Declined
  }

  /** The non-semantic view pattern: a `div` with a `data-oembed-url` attribute of any value. */
  predicate NonSemanticFilter(e: ViewElement)
  {
    e.name == "div" && Attribute(e, "data-oembed-url").Some?
  }

  /** The non-semantic converter. */
  function UpcastNonSemantic(hasMedia: string -> bool, e: ViewElement): Upcast
  {
    if !NonSemanticFilter(e) then Skipped
    else
      var url := Attribute(e, "data-oembed-url").value;
      if hasMedia(url) then Created(Media(url)) else Declined
  }

  /**
   * The semantic converter takes an element exactly when it is named
   * `oembed` or the configured name and carries a non-empty `url`; it creates
   * a `media` element exactly when, besides, the registry has that URL, and
   * the `media` element carries the element's own `url`.
   */
  lemma SemanticUpcast(elementName: string, hasMedia: string -> bool, e: ViewElement)
    ensures UpcastSemantic(elementName, hasMedia, e) != Skipped
            <==> (e.name == "oembed" || e.name == elementName) && "url" in e.attributes && e.attributes["url"] != ""
    ensures UpcastSemantic(elementName, hasMedia, e).Created?
            <==> && (e.name == "oembed" || e.name == elementName)
                 && "url" in e.attributes && e.attributes["url"] != ""
                 && hasMedia(e.attributes["url"])
    ensures UpcastSemantic(elementName, hasMedia, e).Created? ==>
              UpcastSemantic(elementName, hasMedia, e).element == Media(e.attributes["url"])
  {
  }

  /** With the default configuration only `oembed` elements are taken, and any configured name never stops them. */
  lemma SemanticNames(elementName: string, hasMedia: string -> bool, e: ViewElement)
    ensures UpcastSemantic(DefaultElementName, hasMedia, e) != Skipped ==> e.name == "oembed"
    ensures e.name == "oembed" ==>
              UpcastSemantic(elementName, hasMedia, e) == UpcastSemantic(DefaultElementName, hasMedia, e)
  {
  }

  /**
   * The non-semantic converter takes a `div` with a `data-oembed-url`
   * attribute of any value, the empty one included, and creates a `media`
   * element with that URL exactly when the registry has it.
   */
  lemma NonSemanticUpcast(hasMedia: string -> bool, e: ViewElement)
    ensures UpcastNonSemantic(hasMedia, e) != Skipped <==> e.name == "div" && "data-oembed-url" in e.attributes
    ensures UpcastNonSemantic(hasMedia, e).Created?
            <==> e.name == "div" && "data-oembed-url" in e.attributes && hasMedia(e.attributes["data-oembed-url"])
    ensures UpcastNonSemantic(hasMedia, e).Created? ==>
              UpcastNonSemantic(hasMedia, e).element == Media(e.attributes["data-oembed-url"])
  {
  }

  /** An empty `url` is refused by the semantic filter, but an empty `data-oembed-url` passes the non-semantic one. */
  lemma EmptyUrl(elementName: string, hasMedia: string -> bool, attributes: map<string, string>)
    ensures UpcastSemantic(elementName, hasMedia, ViewElement("oembed", attributes["url" := ""])) == Skipped
    ensures UpcastNonSemantic(hasMedia, ViewElement("div", attributes["data-oembed-url" := ""]))
            == if hasMedia("") then Created(Media("")) else Declined
  {
  }

  /** Neither converter creates `media` for a URL the registry does not have. */
  lemma OnlyRecognisedMedia(elementName: string, hasMedia: string -> bool, e: ViewElement)
    ensures UpcastSemantic(elementName, hasMedia, e).Created? ==> hasMedia(UpcastSemantic(elementName, hasMedia, e).element.url)
    ensures UpcastNonSemantic(hasMedia, e).Created? ==> hasMedia(UpcastNonSemantic(hasMedia, e).element.url)
  {
  }
}
