/** A model of the html-index builder (src/lib.rs): a body fragment and an
    optional description meta tag are held by a `Builder`, and `Build`
    wraps the body in fixed HTML boilerplate.

    Strings are `seq<char>`. The builder interpolates caller strings verbatim:
    nothing is escaped, so every property below is a plain equation on
    sequences of characters. */
module HtmlIndex {

  datatype Option<T> = None | Some(value: T)

  // The boilerplate fragments, in the order `Build` emits them.
  const Doctype: string := "<!DOCTYPE html>"
  const Charset: string := "<meta charset=\"utf-8\">"
  const Viewport: string := "<meta name=\"viewport\" content=\"width=device-width, initial-scale=1.0\">"
  const HtmlOpen: string := "<html>"
  const HtmlClose: string := "</html>"
  const HeadOpen: string := "<head>"
  const HeadClose: string := "</head>"

  /** Everything `Build` emits before the body: 126 characters. */
  const Preamble: string := Doctype + HtmlOpen + HeadOpen + Charset + Viewport + HeadClose

  // The two halves of the description template around the caller's text.
  const DescriptionOpen: string := "<meta name=\"description\" content=\""
  const DescriptionClose: string := "\">"

  /** The document `Build` produces for `body`: the fixed head, the body,
      and the closing root tag, with no separators. */
  function Document(body: string): string
  {
    Doctype + HtmlOpen + HeadOpen + Charset + Viewport + HeadClose + body + HtmlClose
  }

  /** The meta tag that `Description` stores for the text `d`. */
  function DescriptionTag(d: string): string
  {
    DescriptionOpen + d + DescriptionClose
  }

  /** Reads a body back out of a document: the characters between the fixed
      preamble and the closing root tag, or None when `html` is not shaped
      like a built document. */
  function BodyOf(html: string): (r: Option<string>)
    ensures r.Some? ==> |r.value| == |html| - |Preamble| - |HtmlClose|
  {
    if |html| >= |Preamble| + |HtmlClose|
       && html[..|Preamble|] == Preamble
       && html[|html| - |HtmlClose|..] == HtmlClose
    then Some(html[|Preamble|..|html| - |HtmlClose|])
    else None
  }

  /** Reads the caller's text back out of a description meta tag, or None
      when `tag` does not have the template's opening and closing parts. */
  function DescriptionContent(tag: string): (r: Option<string>)
    ensures r.Some? ==> |r.value| == |tag| - |DescriptionOpen| - |DescriptionClose|
  {
    if |tag| >= |DescriptionOpen| + |DescriptionClose|
       && tag[..|DescriptionOpen|] == DescriptionOpen
       && tag[|tag| - |DescriptionClose|..] == DescriptionClose
    then Some(tag[|DescriptionOpen|..|tag| - |DescriptionClose|])
    else None
  }

  /** The builder. `body` is the borrowed body fragment; `desc` holds the
      rendered description tag once one has been set. */
  class Builder {
    var body: string
    var desc: Option<string>

    /** `new`: keeps the body as given, with no description. */
    constructor (body: string)
      ensures this.body == body && desc == None
    {
      this.body := body;
      desc := None;
    }

    /** `description`: renders `d` into the meta tag and stores it,
        replacing any earlier description; the body is left alone. */
    method Description(d: string)
      modifies this
      ensures desc == Some(DescriptionTag(d))
      ensures body == old(body)
    {
      var val := DescriptionOpen + d + DescriptionClose;
      desc := Some(val);
    }

    /** `build`: grows the output one fragment at a time. The stored
        description is not read. */
    method Build() returns (html: string)
      ensures html == Document(body)
    {
      html := Doctype;
      html := html + HtmlOpen;
      html := html + HeadOpen;
      html := html + Charset;
      html := html + Viewport;
      html := html + HeadClose;
      html := html + body;
      html := html + HtmlClose;
    }
  }

  /** Whatever the body, the output opens with the HTML5 doctype and closes
      the root element. */
  lemma DocumentBrackets(body: string)
    ensures |Document(body)| >= 15 + 7
    ensures Document(body)[..15] == "<!DOCTYPE html>"
    ensures Document(body)[|Document(body)| - 7..] == "</html>"
  {
  }

  /** The output is exactly as long as the seven fixed fragments and the
      body together, and the body sits verbatim right after the preamble. */
  lemma DocumentLayout(body: string)
    ensures |Document(body)| == |Doctype| + |HtmlOpen| + |HeadOpen| + |Charset|
                                + |Viewport| + |HeadClose| + |HtmlClose| + |body|
    ensures |Preamble| == 126
    ensures Document(body)[126..126 + |body|] == body
  {
  }

  /** Reading the body back out of a built document gives the body. */
  lemma BodyOfDocument(body: string)
    ensures BodyOf(Document(body)) == Some(body)
  {
  }

  /** Conversely, any string from which a body can be read is the document
      built from that body: `BodyOf` accepts exactly the outputs of `Build`. */
  lemma BodyOfSound(html: string, body: string)
    requires BodyOf(html) == Some(body)
    ensures html == Document(body)
  {
  }

  /** Different bodies give different documents. */
  lemma DocumentInjective(a: string, b: string)
    requires Document(a) == Document(b)
    ensures a == b
  {
    BodyOfDocument(a);
    BodyOfDocument(b);
  }

  /** The caller's text is inserted verbatim: it can be read back out of
      the tag unchanged, whatever characters it contains. */
  lemma DescriptionRoundTrip(d: string)
    ensures DescriptionContent(DescriptionTag(d)) == Some(d)
  {
  }

  /** Conversely, a string from which a description can be read is the tag
      rendered from that description. */
  lemma DescriptionContentSound(tag: string, d: string)
    requires DescriptionContent(tag) == Some(d)
    ensures tag == DescriptionTag(d)
  {
  }

  /** Different descriptions render to different tags. */
  lemma DescriptionTagInjective(a: string, b: string)
    requires DescriptionTag(a) == DescriptionTag(b)
    ensures a == b
  {
    DescriptionRoundTrip(a);
    DescriptionRoundTrip(b);
  }

  /** Two `description` calls on one builder: the second one wins, and the
      body stays what `new` was given. */
  method LastDescriptionWins(body: string, first: string, second: string)
    returns (desc: Option<string>, kept: string)
    ensures desc == Some(DescriptionTag(second))
    ensures kept == body
  {
    var b := new Builder(body);
    b.Description(first);
    b.Description(second);
    desc, kept := b.desc, b.body;
  }

  /** Building with no description, with one description, or with another
      description gives the same document, because `Build` never reads
      the description. */
  method BuildIgnoresDescription(body: string, d: string, e: string)
    returns (plain: string, described: string, redescribed: string)
    ensures plain == described && described == redescribed
    ensures plain == Document(body)
  {
    var p := new Builder(body);
    plain := p.Build();
    var q := new Builder(body);
    q.Description(d);
    described := q.Build();
    var r := new Builder(body);
    r.Description(e);
    redescribed := r.Build();
  }
}
