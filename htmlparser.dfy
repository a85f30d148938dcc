/**
 * The article-text parser of repertoire/parser.py. `MusicaliefeitenParser` receives the
 * start-tag, end-tag and text events of an HTML tokenizer and collects the paragraphs of
 * the page's article; `clean_text` normalises whitespace and three HTML entities.
 *
 * The parser's behaviour is given as step functions on a `ParserState` value; the class
 * with the same fields is proved to follow them, event by event.
 */
module Parser {
  import opened Text

  /** What the tokenizer reports; tag attributes are ignored by every handler. */
  datatype Event = StartTag(tag: string) | EndTag(tag: string) | Data(text: string)

  /** The parser's fields as a value. */
  datatype ParserState = ParserState(
    paragraphs: seq<string>,
    currentText: seq<string>,
    inArticle: bool,
    inScript: bool,
    inStyle: bool)

  const Initial := ParserState([], [], false, false, false)

  predicate IsBlock(tag: string)
  {
    tag == "p" || tag == "div"
  }

  predicate IsScriptOrStyle(tag: string)
  {
    tag == "script" || tag == "style"
  }

  /** The paragraphs once the buffered chunks, joined by single spaces, are added. */
  function Flushed(st: ParserState): seq<string>
  {
    if st.currentText == [] then st.paragraphs
    else
      var text := Strip(Join(" ", st.currentText));
      if text != [] then st.paragraphs + [text] else st.paragraphs
  }

  /** The flush a `p` or `div` tag performs: the buffer becomes a paragraph and is emptied. */
  function Flush(st: ParserState): (r: ParserState)
    ensures r.currentText == []
    ensures st.paragraphs <= r.paragraphs && |r.paragraphs| <= |st.paragraphs| + 1
    ensures r.inArticle == st.inArticle && r.inScript == st.inScript && r.inStyle == st.inStyle
  {
    st.(paragraphs := Flushed(st), currentText := [])
  }

  /** `handle_starttag` */
  function StartTagStep(st: ParserState, tag: string): (r: ParserState)
    ensures st.paragraphs <= r.paragraphs
    ensures !IsBlock(tag) ==> r.paragraphs == st.paragraphs && r.currentText == st.currentText
    ensures tag == "article" ==> r.inArticle
  {
    if IsScriptOrStyle(tag) then st.(inScript := tag == "script", inStyle := tag == "style")
    else if tag == "article" then st.(inArticle := true)
    else if IsBlock(tag) then Flush(st)
    else st
  }

  /** `handle_endtag` */
  function EndTagStep(st: ParserState, tag: string): (r: ParserState)
    ensures st.paragraphs <= r.paragraphs
    ensures !IsBlock(tag) ==> r.paragraphs == st.paragraphs && r.currentText == st.currentText
    ensures tag == "article" ==> !r.inArticle
    ensures IsScriptOrStyle(tag) ==> !r.inScript && !r.inStyle
  {
    if IsScriptOrStyle(tag) then st.(inScript := false, inStyle := false)
    else if tag == "article" then st.(inArticle := false)
    else if IsBlock(tag) then Flush(st)
    else st
  }

  /** Text is collected only inside an article and outside scripts and styles. */
  predicate Collecting(st: ParserState)
  {
    !st.inScript && !st.inStyle && st.inArticle
  }

  /** `handle_data` */
  function DataStep(st: ParserState, data: string): (r: ParserState)
    ensures r.paragraphs == st.paragraphs
    ensures r.inArticle == st.inArticle && r.inScript == st.inScript && r.inStyle == st.inStyle
    ensures st.currentText <= r.currentText && |r.currentText| <= |st.currentText| + 1
    ensures !Collecting(st) ==> r == st
  {
    if Collecting(st) && Strip(data) != [] then st.(currentText := st.currentText + [Strip(data)])
    else st
  }

  function Step(st: ParserState, e: Event): ParserState
  {
    match e
    case StartTag(tag) => StartTagStep(st, tag)
    case EndTag(tag) => EndTagStep(st, tag)
    case Data(text) => DataStep(st, text)
  }

  /** The state after feeding the events in order. */
  function Run(st: ParserState, events: seq<Event>): (r: ParserState)
    ensures st.paragraphs <= r.paragraphs
    decreases |events|
  {
    if events == [] then st else Run(Step(st, events[0]), events[1..])
  }

  /** The paragraphs longer than 10 characters, in order. */
  function LongParagraphs(ps: seq<string>): (r: seq<string>)
    ensures |r| <= |ps|
    ensures forall i :: 0 <= i < |r| ==> |r[i]| > 10
    decreases |ps|
  {
    if ps == [] then []
    else LongParagraphs(ps[..|ps| - 1]) + (if |ps[|ps| - 1]| > 10 then [ps[|ps| - 1]] else [])
  }

  /** Exactly the paragraphs longer than 10 characters are kept. */
  lemma {:induction false} LongParagraphsFilter(ps: seq<string>)
    ensures |LongParagraphs(ps)| <= |ps|
    ensures forall p :: p in LongParagraphs(ps) <==> p in ps && |p| > 10
    decreases |ps|
  {
    if ps != [] {
      var init := ps[..|ps| - 1];
      LongParagraphsFilter(init);
      assert ps == init + [ps[|ps| - 1]];
    }
  }

  lemma {:induction false} LongParagraphsConcat(a: seq<string>, b: seq<string>)
    ensures LongParagraphs(a + b) == LongParagraphs(a) + LongParagraphs(b)
    decreases |b|
  {
    if b == [] {
      assert a + b == a;
    } else {
      assert (a + b)[..|a + b| - 1] == a + b[..|b| - 1];
      LongParagraphsConcat(a, b[..|b| - 1]);
    }
  }

  lemma LongSingle(p: string)
    ensures LongParagraphs([p]) == if |p| > 10 then [p] else []
  {
    assert [p][..0] == [];
  }

  /** The state `get_paragraphs` leaves: the pending paragraph is added but the buffer is
      not cleared. */
  function AfterGet(st: ParserState): (r: ParserState)
    ensures r.currentText == st.currentText
    ensures r.inArticle == st.inArticle && r.inScript == st.inScript && r.inStyle == st.inStyle
    ensures st.paragraphs <= r.paragraphs && |r.paragraphs| <= |st.paragraphs| + 1
  {
    st.(paragraphs := Flushed(st))
  }

  /** What `get_paragraphs` returns. */
  function Paragraphs(st: ParserState): seq<string>
  {
    LongParagraphs(Flushed(st))
  }

  /** `extract_text_from_html` on the tokenizer's events. */
  function Extract(events: seq<Event>): (r: seq<string>)
    ensures forall i :: 0 <= i < |r| ==> |r[i]| > 10
  {
    Paragraphs(Run(Initial, events))
  }

  // ----- what the handlers keep true -----

  /** Every buffered chunk and every paragraph is non-empty and has no whitespace at either
      end; a script and a style are never open at once. */
  predicate StateValid(st: ParserState)
  {
    (forall i :: 0 <= i < |st.currentText| ==> st.currentText[i] != [] && Stripped(st.currentText[i])) &&
    (forall i :: 0 <= i < |st.paragraphs| ==> st.paragraphs[i] != [] && Stripped(st.paragraphs[i])) &&
    !(st.inScript && st.inStyle)
  }

  /** Joining stripped non-empty chunks makes a non-empty paragraph with nothing to strip. */
  lemma FlushJoins(st: ParserState)
    requires StateValid(st) && st.currentText != []
    ensures Flushed(st) == st.paragraphs + [Join(" ", st.currentText)]
  {
    JoinOfStrippedChunks(" ", st.currentText);
  }

  lemma FlushedValid(st: ParserState)
    requires StateValid(st)
    ensures forall i :: 0 <= i < |Flushed(st)| ==> Flushed(st)[i] != [] && Stripped(Flushed(st)[i])
  {
    if st.currentText != [] {
      FlushJoins(st);
      JoinOfStrippedChunks(" ", st.currentText);
    }
  }

  lemma StepValid(st: ParserState, e: Event)
    requires StateValid(st)
    ensures StateValid(Step(st, e))
  {
    FlushedValid(st);
    if e.Data? && Collecting(st) && Strip(e.text) != [] {
      var next := Step(st, e);
      assert next.currentText == st.currentText + [Strip(e.text)];
      assert forall i :: 0 <= i < |st.currentText| ==> next.currentText[i] == st.currentText[i];
    }
  }

  lemma {:induction false} RunValid(st: ParserState, events: seq<Event>)
    requires StateValid(st)
    ensures StateValid(Run(st, events))
    decreases |events|
  {
    if events != [] {
      StepValid(st, events[0]);
      RunValid(Step(st, events[0]), events[1..]);
    }
  }

  /** Everything `extract_text_from_html` returns is a non-empty paragraph longer than 10
      characters, with no whitespace at either end. */
  lemma ExtractShape(events: seq<Event>)
    ensures forall i :: 0 <= i < |Extract(events)| ==>
      |Extract(events)[i]| > 10 && Stripped(Extract(events)[i]) && Extract(events)[i] in Flushed(Run(Initial, events))
  {
    RunValid(Initial, events);
    FlushedValid(Run(Initial, events));
    var ps := Flushed(Run(Initial, events));
    LongParagraphsFilter(ps);
    forall i | 0 <= i < |Extract(events)|
      ensures |Extract(events)[i]| > 10 && Stripped(Extract(events)[i]) && Extract(events)[i] in ps
    {
      assert Extract(events)[i] in LongParagraphs(ps);
      var k :| 0 <= k < |ps| && ps[k] == Extract(events)[i];
    }
  }

  /** Only a `p` or `div` tag, opening or closing, adds a paragraph or empties the buffer;
      `article`, `script` and `style` tags never do. */
  lemma OnlyBlocksFlush(st: ParserState, e: Event)
    requires !(e.StartTag? && IsBlock(e.tag)) && !(e.EndTag? && IsBlock(e.tag))
    ensures Step(st, e).paragraphs == st.paragraphs
    ensures st.currentText <= Step(st, e).currentText
  {
  }

  /** Text outside an article, or inside a script or style, is dropped whatever it says. */
  lemma DataOutsideIgnored(st: ParserState, text: string)
    requires !Collecting(st)
    ensures Step(st, Data(text)) == st
  {
  }

  /** Blank text is dropped. */
  lemma BlankDataIgnored(st: ParserState, text: string)
    requires AllSpace(text)
    ensures Step(st, Data(text)) == st
  {
  }

  /** Opening a script closes any style and the other way round; closing either closes
      both; none of this touches the buffer or the article flag. */
  lemma ScriptStyleFlags(st: ParserState)
    ensures Step(st, StartTag("script")) == st.(inScript := true, inStyle := false)
    ensures Step(st, StartTag("style")) == st.(inScript := false, inStyle := true)
    ensures Step(st, EndTag("script")) == st.(inScript := false, inStyle := false)
    ensures Step(st, EndTag("style")) == st.(inScript := false, inStyle := false)
  {
  }

  /** Closing an article stops collection at once, even inside a nested article, and keeps
      the buffered text for the next flush. */
  lemma ArticleEnd(st: ParserState)
    ensures !Collecting(Step(st, EndTag("article")))
    ensures Step(st, EndTag("article")).currentText == st.currentText
    ensures Step(st, EndTag("article")).paragraphs == st.paragraphs
  {
  }

  /** Feeding events one batch after another. */
  lemma {:induction false} RunConcat(st: ParserState, a: seq<Event>, b: seq<Event>)
    ensures Run(st, a + b) == Run(Run(st, a), b)
    decreases |a|
  {
    if a == [] {
      assert a + b == b;
    } else {
      assert (a + b)[0] == a[0];
      assert (a + b)[1..] == a[1..] + b;
      RunConcat(Step(st, a[0]), a[1..], b);
    }
  }

  lemma RunThree(st: ParserState, e1: Event, e2: Event, e3: Event)
    ensures Run(st, [e1, e2, e3]) == Step(Step(Step(st, e1), e2), e3)
  {
    var s1 := Step(st, e1);
    var s2 := Step(s1, e2);
    var s3 := Step(s2, e3);
    assert [e3][1..] == [];
    assert Run(s2, [e3]) == s3;
    assert [e2, e3][1..] == [e3];
    assert Run(s1, [e2, e3]) == s3;
    assert [e1, e2, e3][1..] == [e2, e3];
  }

  /** Nothing is collected before an article starts. */
  predicate Quiet(st: ParserState)
  {
    !st.inArticle && st.currentText == [] && st.paragraphs == []
  }

  lemma {:induction false} RunQuiet(st: ParserState, events: seq<Event>)
    requires Quiet(st)
    requires forall i :: 0 <= i < |events| ==> events[i] != StartTag("article")
    ensures Quiet(Run(st, events))
    decreases |events|
  {
    if events != [] {
      assert Quiet(Step(st, events[0]));
      RunQuiet(Step(st, events[0]), events[1..]);
    }
  }

  /** A page without an `article` start tag yields no paragraphs (`test_empty_html`). */
  lemma NoArticleNoParagraphs(events: seq<Event>)
    requires forall i :: 0 <= i < |events| ==> events[i] != StartTag("article")
    ensures Extract(events) == []
  {
    RunQuiet(Initial, events);
  }

  /** `get_paragraphs` does not empty the buffer, so a second call adds the pending
      paragraph again and returns it twice when it is long enough. */
  lemma SecondGetRepeats(st: ParserState)
    requires StateValid(st) && st.currentText != []
    ensures Flushed(AfterGet(st)) == Flushed(st) + [Join(" ", st.currentText)]
    ensures Paragraphs(AfterGet(st)) ==
      Paragraphs(st) + (if |Join(" ", st.currentText)| > 10 then [Join(" ", st.currentText)] else [])
  {
    FlushJoins(st);
    FlushedValid(st);
    FlushJoins(AfterGet(st));
    LongParagraphsConcat(Flushed(st), [Join(" ", st.currentText)]);
    assert LongParagraphs([Join(" ", st.currentText)]) == (if |Join(" ", st.currentText)| > 10 then [Join(" ", st.currentText)] else []) by {
      assert [Join(" ", st.currentText)][..0] == [];
    }
  }

  // ----- the pages of the tests, with the text of each paragraph left open -----

  /** `<p>text</p>` inside an article, with nothing buffered, adds `text` as a paragraph. */
  lemma ParagraphElement(st: ParserState, text: string)
    requires Collecting(st) && st.currentText == []
    requires text != [] && Stripped(text)
    ensures Run(st, [StartTag("p"), Data(text), EndTag("p")]) == st.(paragraphs := st.paragraphs + [text])
  {
    StripStripped(text);
    RunThree(st, StartTag("p"), Data(text), EndTag("p"));
    assert Step(Step(st, StartTag("p")), Data(text)).currentText == [text];
    assert Join(" ", [text]) == text;
  }

  /** A `<script>` or `<style>` element changes nothing, whatever it contains. */
  lemma HiddenElement(st: ParserState, tag: string, text: string)
    requires IsScriptOrStyle(tag) && !st.inScript && !st.inStyle
    ensures Run(st, [StartTag(tag), Data(text), EndTag(tag)]) == st
  {
    RunThree(st, StartTag(tag), Data(text), EndTag(tag));
  }

  /** The events of `<p>text</p>` for each text in turn. */
  function ParagraphEvents(texts: seq<string>): (r: seq<Event>)
    ensures |r| == 3 * |texts|
    decreases |texts|
  {
    if texts == [] then []
    else ParagraphEvents(texts[..|texts| - 1]) + [StartTag("p"), Data(texts[|texts| - 1]), EndTag("p")]
  }

  /** Paragraph elements inside an article add their texts, in order, as paragraphs. */
  lemma {:induction false} RunParagraphs(st: ParserState, texts: seq<string>)
    requires Collecting(st) && st.currentText == []
    requires forall i :: 0 <= i < |texts| ==> texts[i] != [] && Stripped(texts[i])
    ensures Run(st, ParagraphEvents(texts)) == st.(paragraphs := st.paragraphs + texts)
    decreases |texts|
  {
    if texts == [] {
      assert st.paragraphs + texts == st.paragraphs;
    } else {
      var init := texts[..|texts| - 1];
      var last := texts[|texts| - 1];
      RunParagraphs(st, init);
      RunConcat(st, ParagraphEvents(init), [StartTag("p"), Data(last), EndTag("p")]);
      ParagraphElement(st.(paragraphs := st.paragraphs + init), last);
      assert st.paragraphs + init + [last] == st.paragraphs + texts;
    }
  }

  /** A page whose article holds one paragraph element per text. */
  function ArticlePage(texts: seq<string>): seq<Event>
  {
    [StartTag("article")] + ParagraphEvents(texts) + [EndTag("article")]
  }

  /** `test_extract_simple_html` and `test_ignore_short_paragraphs`: such a page yields
      its texts longer than 10 characters, in page order. */
  lemma ArticleParagraphs(texts: seq<string>)
    requires forall i :: 0 <= i < |texts| ==> texts[i] != [] && Stripped(texts[i])
    ensures Extract(ArticlePage(texts)) == LongParagraphs(texts)
  {
    var s0 := Initial.(inArticle := true);
    var s1 := s0.(paragraphs := texts);
    RunParagraphs(s0, texts);
    assert [] + texts == texts;
    RunArticle(texts, s1);
  }

  lemma RunArticle(texts: seq<string>, s1: ParserState)
    requires Run(Initial.(inArticle := true), ParagraphEvents(texts)) == s1
    ensures Run(Initial, ArticlePage(texts)) == s1.(inArticle := false)
  {
    assert Run(Initial, [StartTag("article")]) == Initial.(inArticle := true);
    RunConcat(Initial, [StartTag("article")], ParagraphEvents(texts));
    RunConcat(Initial, [StartTag("article")] + ParagraphEvents(texts), [EndTag("article")]);
    assert Run(s1, [EndTag("article")]) == s1.(inArticle := false);
  }

  /** A script element followed by a style element changes nothing. */
  lemma HiddenPair(st: ParserState, script: string, style: string)
    requires !st.inScript && !st.inStyle
    ensures Run(st, [StartTag("script"), Data(script), EndTag("script")] +
                    [StartTag("style"), Data(style), EndTag("style")]) == st
  {
    HiddenElement(st, "script", script);
    HiddenElement(st, "style", style);
    RunConcat(st, [StartTag("script"), Data(script), EndTag("script")], [StartTag("style"), Data(style), EndTag("style")]);
  }

  lemma OpenArticle(first: string)
    requires first != [] && Stripped(first)
    ensures Run(Initial, [StartTag("article")] + [StartTag("p"), Data(first), EndTag("p")]) ==
      Initial.(inArticle := true, paragraphs := [first])
  {
    var s0 := Initial.(inArticle := true);
    assert Run(Initial, [StartTag("article")]) == s0;
    ParagraphElement(s0, first);
    RunConcat(Initial, [StartTag("article")], [StartTag("p"), Data(first), EndTag("p")]);
  }

  lemma CloseArticle(first: string, second: string)
    requires second != [] && Stripped(second)
    ensures Run(Initial.(inArticle := true, paragraphs := [first]),
                [StartTag("p"), Data(second), EndTag("p")] + [EndTag("article")]) ==
      Initial.(paragraphs := [first, second])
  {
    var s1 := Initial.(inArticle := true, paragraphs := [first]);
    ParagraphElement(s1, second);
    var s2 := s1.(paragraphs := [first, second]);
    assert Run(s2, [EndTag("article")]) == s2.(inArticle := false);
    RunConcat(s1, [StartTag("p"), Data(second), EndTag("p")], [EndTag("article")]);
  }

  lemma LongOfTwo(first: string, second: string)
    requires |first| > 10 && |second| > 10
    ensures LongParagraphs([first, second]) == [first, second]
  {
    LongSingle(first);
    LongSingle(second);
    LongParagraphsConcat([first], [second]);
    assert [first] + [second] == [first, second];
  }

  /** `test_ignore_script_and_style`: two paragraphs, with a script and a style between
      them, give exactly the two paragraphs. */
  lemma ScriptAndStyleIgnored(first: string, second: string, script: string, style: string)
    requires first != [] && Stripped(first) && |first| > 10
    requires second != [] && Stripped(second) && |second| > 10
    ensures Extract(([StartTag("article")] + [StartTag("p"), Data(first), EndTag("p")]) +
                    ([StartTag("script"), Data(script), EndTag("script")] +
                     [StartTag("style"), Data(style), EndTag("style")]) +
                    ([StartTag("p"), Data(second), EndTag("p")] + [EndTag("article")])) == [first, second]
  {
    var a := [StartTag("article")] + [StartTag("p"), Data(first), EndTag("p")];
    var hidden := [StartTag("script"), Data(script), EndTag("script")] +
                  [StartTag("style"), Data(style), EndTag("style")];
    var c := [StartTag("p"), Data(second), EndTag("p")] + [EndTag("article")];
    var s1 := Initial.(inArticle := true, paragraphs := [first]);
    OpenArticle(first);
    HiddenPair(s1, script, style);
    CloseArticle(first, second);
    RunConcat(Initial, a, hidden);
    RunConcat(Initial, a + hidden, c);
    LongOfTwo(first, second);
  }

  /** `test_ignore_short_paragraphs`: paragraphs of at most 10 characters are left out. */
  lemma ShortParagraphsIgnored(short1: string, long: string, short2: string)
    requires short1 != [] && Stripped(short1) && |short1| <= 10
    requires long != [] && Stripped(long) && |long| > 10
    requires short2 != [] && Stripped(short2) && |short2| <= 10
    ensures Extract(ArticlePage([short1, long, short2])) == [long]
  {
    ArticleParagraphs([short1, long, short2]);
    LongOfThree(short1, long, short2);
  }

  lemma LongOfThree(short1: string, long: string, short2: string)
    requires |short1| <= 10 && |long| > 10 && |short2| <= 10
    ensures LongParagraphs([short1, long, short2]) == [long]
  {
    LongParagraphsConcat([short1], [long]);
    LongParagraphsConcat([short1, long], [short2]);
    assert [short1] + [long] == [short1, long];
    assert [short1, long] + [short2] == [short1, long, short2];
    LongSingle(short1);
    LongSingle(long);
    LongSingle(short2);
  }

  /** `test_malformed_html`: text left in an unclosed paragraph is still returned. */
  lemma UnclosedParagraph(text: string)
    requires text != [] && Stripped(text) && |text| > 10
    ensures Extract([StartTag("article"), StartTag("p"), Data(text)]) == [text]
  {
    StripStripped(text);
    RunThree(Initial, StartTag("article"), StartTag("p"), Data(text));
    var s := Run(Initial, [StartTag("article"), StartTag("p"), Data(text)]);
    assert s.currentText == [text] && s.paragraphs == [];
    assert Join(" ", [text]) == text;
    assert Flushed(s) == [text];
    assert LongParagraphs([text]) == [text] by {
      assert [text][..0] == [];
    }
  }

  // ----- the parser object -----

  class MusicaliefeitenParser {
    var paragraphs: seq<string>
    var currentText: seq<string>
    var inArticle: bool
    var inScript: bool
    var inStyle: bool

    function State(): ParserState
      reads this
    {
      ParserState(paragraphs, currentText, inArticle, inScript, inStyle)
    }

    constructor ()
      ensures State() == Initial
    {
      paragraphs := [];
      currentText := [];
      inArticle := false;
      inScript := false;
      inStyle := false;
    }

    /** The flush shared by the `p` and `div` branches of both tag handlers. */
    method FlushText()
      modifies this
      ensures State() == Flush(old(State()))
    {
      if currentText != [] {
        var text := Strip(Join(" ", currentText));
        if text != [] {
          paragraphs := paragraphs + [text];
        }
        currentText := [];
      }
    }

    method HandleStartTag(tag: string)
      modifies this
      ensures State() == StartTagStep(old(State()), tag)
    {
      if tag == "script" || tag == "style" {
        inScript := tag == "script";
        inStyle := tag == "style";
      } else if tag == "article" {
        inArticle := true;
      } else if tag == "p" || tag == "div" {
        FlushText();
      }
    }

    method HandleEndTag(tag: string)
      modifies this
      ensures State() == EndTagStep(old(State()), tag)
    {
      if tag == "script" || tag == "style" {
        inScript := false;
        inStyle := false;
      } else if tag == "article" {
        inArticle := false;
      } else if tag == "p" || tag == "div" {
        FlushText();
      }
    }

    method HandleData(data: string)
      modifies this
      ensures State() == DataStep(old(State()), data)
    {
      if !inScript && !inStyle && inArticle {
        var cleaned := Strip(data);
        if cleaned != [] {
          currentText := currentText + [cleaned];
        }
      }
    }

    /** Adds the pending paragraph without emptying the buffer, then returns the
        paragraphs longer than 10 characters. */
    method GetParagraphs() returns (result: seq<string>)
      modifies this
      ensures State() == AfterGet(old(State()))
      ensures result == Paragraphs(old(State()))
    {
      if currentText != [] {
        var text := Strip(Join(" ", currentText));
        if text != [] {
          paragraphs := paragraphs + [text];
        }
      }
      result := [];
      var i := 0;
      while i < |paragraphs|
        invariant 0 <= i <= |paragraphs|
        invariant result == LongParagraphs(paragraphs[..i])
      {
        assert paragraphs[..i + 1][..i] == paragraphs[..i];
        if |paragraphs[i]| > 10 {
          result := result + [paragraphs[i]];
        }
        i := i + 1;
      }
      assert paragraphs[..i] == paragraphs;
    }
  }

  /** `extract_text_from_html`, given the tokenizer's events instead of the page. */
  method ExtractTextFromEvents(events: seq<Event>) returns (result: seq<string>)
    ensures result == Extract(events)
  {
    var parser := new MusicaliefeitenParser();
    var i := 0;
    while i < |events|
      invariant 0 <= i <= |events|
      invariant Run(parser.State(), events[i..]) == Run(Initial, events)
      decreases |events| - i
    {
      assert events[i..][1..] == events[i + 1..];
      match events[i] {
        case StartTag(tag) => parser.HandleStartTag(tag);
        case EndTag(tag) => parser.HandleEndTag(tag);
        case Data(text) => parser.HandleData(text);
      }
      i := i + 1;
    }
    result := parser.GetParagraphs();
  }

  // ----- clean_text -----

  /** `clean_text`: whitespace runs collapse to one space first, then a single pass each
      replaces `&nbsp;`, `&quot;` and `&amp;`, in that order, and the ends are stripped. */
  function CleanText(text: string): (r: string)
    ensures Stripped(r)
  {
    var collapsed := CollapseWhitespace(text);
    var noNbsp := ReplaceAll(collapsed, "&nbsp;", " ");
    var noQuot := ReplaceAll(noNbsp, "&quot;", "\"");
    Strip(ReplaceAll(noQuot, "&amp;", "&"))
  }

  /** `clean_text` composed from its passes. */
  lemma CleanTextOfPasses(text: string, c: string, n: string, q: string, m: string)
    requires CollapseWhitespace(text) == c
    requires ReplaceAll(c, "&nbsp;", " ") == n
    requires ReplaceAll(n, "&quot;", "\"") == q
    requires ReplaceAll(q, "&amp;", "&") == m
    requires Stripped(m)
    ensures CleanText(text) == m
  {
    StripStripped(m);
  }

  /** The result has no whitespace other than plain spaces. */
  lemma CleanTextPlainSpaces(text: string)
    ensures OnlyPlainSpaces(CleanText(text))
  {
    var collapsed := CollapseWhitespace(text);
    var noNbsp := ReplaceAll(collapsed, "&nbsp;", " ");
    var noQuot := ReplaceAll(noNbsp, "&quot;", "\"");
    CollapseWhitespaceCollapsed(text);
    ReplaceAllPlainSpaces(collapsed, "&nbsp;", " ");
    ReplaceAllPlainSpaces(noNbsp, "&quot;", "\"");
    ReplaceAllPlainSpaces(noQuot, "&amp;", "&");
    StripKeepsCollapsed(ReplaceAll(noQuot, "&amp;", "&"));
  }

  /** Collapsing whitespace adds no character other than the space. */
  lemma {:induction false} CollapseAddsOnlySpaces(s: string, c: char)
    requires !IsSpace(c) && c !in s
    ensures c !in CollapseWhitespace(s)
    decreases |s|
  {
    if s != [] {
      if IsSpace(s[0]) {
        assert c !in TrimLeft(s);
        CollapseAddsOnlySpaces(TrimLeft(s), c);
      } else {
        CollapseAddsOnlySpaces(s[1..], c);
      }
    }
  }

  /** Text without an ampersand is only collapsed and stripped: no whitespace run is
      longer than one space, and nothing else changes. */
  lemma CleanTextWithoutEntities(text: string)
    requires '&' !in text
    ensures CleanText(text) == Strip(CollapseWhitespace(text))
    ensures Collapsed(CleanText(text))
  {
    var collapsed := CollapseWhitespace(text);
    CollapseWhitespaceCollapsed(text);
    CollapseAddsOnlySpaces(text, '&');
    if Contains(collapsed, "&nbsp;") {
      ContainsFirstChar(collapsed, "&nbsp;");
    }
    ReplaceAllAbsent(collapsed, "&nbsp;", " ");
    if Contains(collapsed, "&quot;") {
      ContainsFirstChar(collapsed, "&quot;");
    }
    ReplaceAllAbsent(collapsed, "&quot;", "\"");
    if Contains(collapsed, "&amp;") {
      ContainsFirstChar(collapsed, "&amp;");
    }
    ReplaceAllAbsent(collapsed, "&amp;", "&");
    StripKeepsCollapsed(collapsed);
  }

  /** Words separated by whitespace runs: `words[0] + gaps[0] + words[1] + ...`. */
  function Gapped(words: seq<string>, gaps: seq<string>): (r: string)
    requires |words| == |gaps| + 1
    ensures words[0] <= r
    decreases |gaps|
  {
    if gaps == [] then words[0] else words[0] + gaps[0] + Gapped(words[1..], gaps[1..])
  }

  predicate Word(w: string)
  {
    w != [] && '&' !in w && forall i :: 0 <= i < |w| ==> !IsSpace(w[i])
  }

  predicate Gap(g: string)
  {
    g != [] && AllSpace(g)
  }

  lemma {:induction false} CollapseGapped(words: seq<string>, gaps: seq<string>, t: string)
    requires |words| == |gaps| + 1
    requires forall i :: 0 <= i < |words| ==> Word(words[i])
    requires forall i :: 0 <= i < |gaps| ==> Gap(gaps[i])
    ensures CollapseWhitespace(Gapped(words, gaps) + t) == Join(" ", words) + CollapseWhitespace(t)
    decreases |gaps|
  {
    if gaps == [] {
      CollapseWord(words[0], t);
    } else {
      var rest := Gapped(words[1..], gaps[1..]);
      GappedTail(words, gaps);
      CollapseGapped(words[1..], gaps[1..], t);
      assert rest[0] == words[1][0];
      WordThenGap(words[0], gaps[0], rest + t);
      assert Gapped(words, gaps) + t == words[0] + (gaps[0] + (rest + t));
      assert Join(" ", words) == words[0] + " " + Join(" ", words[1..]);
    }
  }

  lemma GappedTail(words: seq<string>, gaps: seq<string>)
    requires |words| == |gaps| + 1 && gaps != []
    requires forall i :: 0 <= i < |words| ==> Word(words[i])
    requires forall i :: 0 <= i < |gaps| ==> Gap(gaps[i])
    ensures forall i :: 0 <= i < |words[1..]| ==> Word(words[1..][i])
    ensures forall i :: 0 <= i < |gaps[1..]| ==> Gap(gaps[1..][i])
  {
    forall i | 0 <= i < |words[1..]| ensures Word(words[1..][i]) {
      assert words[1..][i] == words[i + 1];
    }
    forall i | 0 <= i < |gaps[1..]| ensures Gap(gaps[1..][i]) {
      assert gaps[1..][i] == gaps[i + 1];
    }
  }

  /** A word, a whitespace run and then a non-space collapse to the word and one space. */
  lemma WordThenGap(w: string, g: string, u: string)
    requires Word(w) && Gap(g) && (u == [] || !IsSpace(u[0]))
    ensures CollapseWhitespace(w + (g + u)) == w + " " + CollapseWhitespace(u)
  {
    CollapseGap(g, u);
    CollapseWord(w, g + u);
  }

  lemma {:induction false} GappedPlain(words: seq<string>, gaps: seq<string>)
    requires |words| == |gaps| + 1
    requires forall i :: 0 <= i < |words| ==> Word(words[i])
    requires forall i :: 0 <= i < |gaps| ==> Gap(gaps[i])
    ensures '&' !in Gapped(words, gaps)
    decreases |gaps|
  {
    if gaps != [] {
      GappedPlain(words[1..], gaps[1..]);
      assert '&' !in gaps[0];
    }
  }

  /** Whitespace of one character or more becomes a single space. */
  lemma CollapseGapAlone(g: string)
    requires AllSpace(g)
    ensures CollapseWhitespace(g) == (if g == [] then [] else " ")
  {
    if g != [] {
      CollapseGap(g, []);
      assert g + [] == g;
    }
  }

  lemma CollapsePaddedWords(lead: string, words: seq<string>, gaps: seq<string>, trail: string)
    requires AllSpace(lead)
    requires |words| == |gaps| + 1
    requires forall i :: 0 <= i < |words| ==> Word(words[i])
    requires forall i :: 0 <= i < |gaps| ==> Gap(gaps[i])
    ensures CollapseWhitespace(lead + Gapped(words, gaps) + trail) ==
      (if lead == [] then [] else " ") + Join(" ", words) + CollapseWhitespace(trail)
  {
    var g := Gapped(words, gaps);
    if lead == [] {
      assert lead + g + trail == g + trail;
      CollapseGapped(words, gaps, trail);
    } else {
      assert lead + g + trail == lead + (g + trail);
      CollapseLeadingGap(lead, words, gaps, trail);
    }
  }

  lemma CollapseLeadingGap(lead: string, words: seq<string>, gaps: seq<string>, trail: string)
    requires lead != [] && AllSpace(lead)
    requires |words| == |gaps| + 1
    requires forall i :: 0 <= i < |words| ==> Word(words[i])
    requires forall i :: 0 <= i < |gaps| ==> Gap(gaps[i])
    ensures CollapseWhitespace(lead + (Gapped(words, gaps) + trail)) ==
      " " + Join(" ", words) + CollapseWhitespace(trail)
  {
    var g := Gapped(words, gaps);
    var t := g + trail;
    var joined := Join(" ", words);
    var c := CollapseWhitespace(trail);
    assert CollapseWhitespace(lead + t) == " " + CollapseWhitespace(t) by {
      assert t[0] == words[0][0];
      CollapseGap(lead, t);
    }
    assert CollapseWhitespace(t) == joined + c by {
      CollapseGapped(words, gaps, trail);
    }
    assert " " + (joined + c) == " " + joined + c;
  }

  /** Words joined by single spaces have nothing to strip. */
  lemma JoinedWordsStripped(words: seq<string>)
    requires |words| > 0
    requires forall i :: 0 <= i < |words| ==> Word(words[i])
    ensures Join(" ", words) != [] && Stripped(Join(" ", words))
  {
    assert forall i :: 0 <= i < |words| ==> words[i] != [] && Stripped(words[i]);
    JoinOfStrippedChunks(" ", words);
  }

  lemma StripPaddedWords(lead: string, words: seq<string>, trail: string)
    requires AllSpace(trail) && |words| > 0
    requires forall i :: 0 <= i < |words| ==> Word(words[i])
    ensures Strip((if lead == [] then [] else " ") + Join(" ", words) + CollapseWhitespace(trail)) == Join(" ", words)
  {
    CollapseGapAlone(trail);
    JoinedWordsStripped(words);
    StripPadded(if lead == [] then [] else " ", Join(" ", words), CollapseWhitespace(trail));
  }

  /** Collapsing and stripping words padded by whitespace leaves the words joined by
      single spaces. */
  lemma StripCollapsedWords(lead: string, words: seq<string>, gaps: seq<string>, trail: string)
    requires AllSpace(lead) && AllSpace(trail)
    requires |words| == |gaps| + 1
    requires forall i :: 0 <= i < |words| ==> Word(words[i])
    requires forall i :: 0 <= i < |gaps| ==> Gap(gaps[i])
    ensures Strip(CollapseWhitespace(lead + Gapped(words, gaps) + trail)) == Join(" ", words)
  {
    StripPaddedWords(lead, words, trail);
    CollapsePaddedWords(lead, words, gaps, trail);
  }

  /** `test_remove_extra_spaces` and `test_strip_whitespace`: whitespace around and between
      words is cut down to single spaces between the words. */
  lemma CleanTextSpacedWords(lead: string, words: seq<string>, gaps: seq<string>, trail: string)
    requires AllSpace(lead) && AllSpace(trail)
    requires |words| == |gaps| + 1
    requires forall i :: 0 <= i < |words| ==> Word(words[i])
    requires forall i :: 0 <= i < |gaps| ==> Gap(gaps[i])
    ensures CleanText(lead + Gapped(words, gaps) + trail) == Join(" ", words)
  {
    GappedPlain(words, gaps);
    assert '&' !in lead && '&' !in trail;
    CleanTextWithoutEntities(lead + Gapped(words, gaps) + trail);
    StripCollapsedWords(lead, words, gaps, trail);
  }

  /** Each entity is replaced in a single pass: `&amp;quot;` becomes `&quot;`, not a quote. */
  lemma AmpersandDecodedOnce(amp: string, quot: string)
    requires amp == "&amp;" && quot == "quot;"
    ensures CleanText(amp + quot) == "&" + quot
  {
    var s := amp + quot;
    assert Collapsed(s);
    CollapsedUnchanged(s);
    ReplaceAllMiss(amp, quot, "&nbsp;", " ");
    ReplaceAllNoStart(quot, [], "&nbsp;", " ");
    assert quot + [] == quot;
    ReplaceAllMiss(amp, quot, "&quot;", "\"");
    ReplaceAllNoStart(quot, [], "&quot;", "\"");
    ReplaceAllAt(quot, "&amp;", "&");
    ReplaceAllNoStart(quot, [], "&amp;", "&");
    StripStripped("&" + quot);
  }

  /** Text without entities and with single spaces only. */
  predicate Plain(s: string)
  {
    '&' !in s && Collapsed(s)
  }

  /** A `&nbsp;` becomes a space only after whitespace has been collapsed, so next to a
      space it leaves two spaces in the result. */
  lemma NbspAfterCollapse(a: string, b: string)
    requires Plain(a) && Plain(b)
    requires a != [] && !IsSpace(a[0]) && b != [] && !IsSpace(b[|b| - 1])
    ensures CleanText(a + "&nbsp;" + b) == a + " " + b
    ensures b[0] == ' ' ==> !Collapsed(CleanText(a + "&nbsp;" + b))
  {
    var r := a + (" " + b);
    NbspCleaned(a, b);
    assert a + "&nbsp;" + b == a + ("&nbsp;" + b);
    assert a + " " + b == r;
    if b[0] == ' ' {
      assert r[|a|] == ' ' && r[|a| + 1] == ' ';
    }
  }

  lemma NbspCleaned(a: string, b: string)
    requires Plain(a) && Plain(b)
    requires a != [] && !IsSpace(a[0]) && b != [] && !IsSpace(b[|b| - 1])
    ensures CleanText(a + ("&nbsp;" + b)) == a + (" " + b)
  {
    var s := a + ("&nbsp;" + b);
    var r := a + (" " + b);
    NbspCollapsed(a, b);
    CollapsedUnchanged(s);
    NbspReplaced(a, b);
    NoEntitiesLeft(r);
    assert r[0] == a[0] && r[|r| - 1] == b[|b| - 1];
    CleanTextOfPasses(s, s, r, r, r);
  }

  lemma NbspCollapsed(a: string, b: string)
    requires Collapsed(a) && Collapsed(b)
    ensures Collapsed(a + ("&nbsp;" + b))
  {
    CollapsedConcat("&nbsp;", b);
    CollapsedConcat(a, "&nbsp;" + b);
  }

  lemma NbspReplaced(a: string, b: string)
    requires '&' !in a && '&' !in b
    ensures ReplaceAll(a + ("&nbsp;" + b), "&nbsp;", " ") == a + (" " + b)
  {
    ReplaceAllNoStart(b, [], "&nbsp;", " ");
    assert b + [] == b;
    ReplaceAllAt(b, "&nbsp;", " ");
    ReplaceAllNoStart(a, "&nbsp;" + b, "&nbsp;", " ");
  }

  /** The second and third passes leave a text without ampersands alone. */
  lemma NoEntitiesLeft(r: string)
    requires '&' !in r
    ensures ReplaceAll(r, "&quot;", "\"") == r && ReplaceAll(r, "&amp;", "&") == r
  {
    ReplaceAllNoStart(r, [], "&quot;", "\"");
    ReplaceAllNoStart(r, [], "&amp;", "&");
    assert r + [] == r;
  }

  /** The text of `test_remove_html_entities`, with its plain parts left open. */
  function EntityText(a: string, b: string, c: string, amp: string, quot: string): string
  {
    a + (amp + (b + (quot + (c + quot))))
  }

  lemma EntityTextCollapsed(a: string, b: string, c: string)
    requires Plain(a) && Plain(b) && Plain(c)
    ensures Collapsed(EntityText(a, b, c, "&amp;", "&quot;"))
  {
    var amp, quot := "&amp;", "&quot;";
    CollapsedConcat(c, quot);
    CollapsedConcat(quot, c + quot);
    CollapsedConcat(b, quot + (c + quot));
    CollapsedConcat(amp, b + (quot + (c + quot)));
    CollapsedConcat(a, amp + (b + (quot + (c + quot))));
  }

  lemma EntityTextNoNbsp(a: string, b: string, c: string)
    requires Plain(a) && Plain(b) && Plain(c)
    ensures ReplaceAll(EntityText(a, b, c, "&amp;", "&quot;"), "&nbsp;", " ") == EntityText(a, b, c, "&amp;", "&quot;")
  {
    var amp, quot, pat := "&amp;", "&quot;", "&nbsp;";
    ReplaceAllMiss(quot, [], pat, " ");
    assert quot + [] == quot;
    ReplaceAllNoStart(c, quot, pat, " ");
    ReplaceAllMiss(quot, c + quot, pat, " ");
    ReplaceAllNoStart(b, quot + (c + quot), pat, " ");
    ReplaceAllMiss(amp, b + (quot + (c + quot)), pat, " ");
    ReplaceAllNoStart(a, amp + (b + (quot + (c + quot))), pat, " ");
  }

  lemma EntityTextQuotes(a: string, b: string, c: string)
    requires Plain(a) && Plain(b) && Plain(c)
    ensures ReplaceAll(EntityText(a, b, c, "&amp;", "&quot;"), "&quot;", "\"") == EntityText(a, b, c, "&amp;", "\"")
  {
    var amp, quot, q := "&amp;", "&quot;", "\"";
    ReplaceAllAt([], quot, q);
    assert quot + [] == quot;
    ReplaceAllNoStart(c, quot, quot, q);
    ReplaceAllAt(c + quot, quot, q);
    ReplaceAllNoStart(b, quot + (c + quot), quot, q);
    ReplaceAllMiss(amp, b + (quot + (c + quot)), quot, q);
    ReplaceAllNoStart(a, amp + (b + (quot + (c + quot))), quot, q);
  }

  lemma EntityTextAmpersand(a: string, b: string, c: string)
    requires Plain(a) && Plain(b) && Plain(c)
    ensures ReplaceAll(EntityText(a, b, c, "&amp;", "\""), "&amp;", "&") == EntityText(a, b, c, "&", "\"")
  {
    var amp, q := "&amp;", "\"";
    var t := b + (q + (c + q));
    assert '&' !in t;
    ReplaceAllNoStart(t, [], amp, "&");
    assert t + [] == t;
    ReplaceAllAt(t, amp, "&");
    ReplaceAllNoStart(a, amp + t, amp, "&");
  }

  /** `test_remove_html_entities`: `&amp;` and `&quot;` around ordinary text become `&` and
      a double quote, and nothing else changes. */
  lemma EntitiesDecoded(a: string, b: string, c: string)
    requires Plain(a) && Plain(b) && Plain(c)
    requires a == [] || !IsSpace(a[0])
    ensures CleanText(EntityText(a, b, c, "&amp;", "&quot;")) == EntityText(a, b, c, "&", "\"")
  {
    var s := EntityText(a, b, c, "&amp;", "&quot;");
    EntityTextCollapsed(a, b, c);
    CollapsedUnchanged(s);
    EntityTextNoNbsp(a, b, c);
    EntityTextQuotes(a, b, c);
    EntityTextAmpersand(a, b, c);
    var r := EntityText(a, b, c, "&", "\"");
    assert r[|r| - 1] == '"';
    assert r[0] == (if a == [] then '&' else a[0]);
    StripStripped(r);
  }
}
