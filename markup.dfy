/// The markup interpreter of html_parser.py (`HTMLToWordParser`): a two-stack
/// state machine that turns a stream of start-tag, end-tag and text events into
/// paragraphs of styled runs inside a container.
///
/// The container is abstract: a list of paragraphs plus one flag saying whether
/// it already owns a default first paragraph (a table cell or a footer does, a
/// bare document does not). Paragraphs are named by their index in that list.
///
/// The pure functions `Step` and `Feed` specify one event and a whole event
/// list; the classes `Container` and `Parser` are the imperative code. The
/// handlers `HandleStartTag`, `HandleEndTag` and `HandleData`, and the
/// dispatching `Handle`, are each proved to perform exactly one `Step`;
/// `CurrentStyle` is proved equal to `Union`, and `Parse` to `Feed`.
module Markup {
  import opened Wrappers

  /// The four flags a run carries.
  datatype Style = Bold | Italic | Underline | Subscript

  /// One event of the tokenizer's stream.
  datatype Event = StartTag(tag: string) | EndTag(tag: string) | Data(text: string)

  /// A run of text with its four font flags.
  datatype Run = Run(text: string, bold: bool, italic: bool, underline: bool, subscript: bool)

  type Paragraph = seq<Run>

  /// The style map a start tag pushes. The source's maps only ever hold the
  /// value `True`, so a map is represented by its set of keys.
  function TagStyle(tag: string): (m: set<Style>)
    ensures Bold in m <==> tag == "b" || tag == "strong"
    ensures Italic in m <==> tag == "i" || tag == "em"
    ensures Underline in m <==> tag == "u"
    ensures Subscript in m <==> tag == "sub"
    ensures |m| <= 1
  {
    if tag == "b" || tag == "strong" then {Bold}
    else if tag == "i" || tag == "em" then {Italic}
    else if tag == "u" then {Underline}
    else if tag == "sub" then {Subscript}
    else {}
  }

  /// The end tags that pop the style stack (and only these): exactly the
  /// tags whose start tag pushes a non-empty style map.
  function PopsStyle(tag: string): (r: bool)
    ensures r <==> TagStyle(tag) != {}
  {
    tag == "b" || tag == "i" || tag == "u" || tag == "strong" || tag == "em" || tag == "sub"
  }

  /// The effective style: the union of every map on the style stack.
  function Union(styles: seq<set<Style>>): (r: set<Style>)
    ensures forall st :: st in r <==> exists i :: 0 <= i < |styles| && st in styles[i]
  {
    if styles == [] then {}
    else
      var rest := Union(styles[1..]);
      assert forall i :: 1 <= i < |styles| ==> styles[i] == styles[1..][i - 1];
      styles[0] + rest
  }

  /// The run a text event produces under a given style stack.
  function MakeRun(text: string, styles: seq<set<Style>>): (r: Run)
    ensures r.text == text
    ensures r.bold <==> exists i :: 0 <= i < |styles| && Bold in styles[i]
    ensures r.italic <==> exists i :: 0 <= i < |styles| && Italic in styles[i]
    ensures r.underline <==> exists i :: 0 <= i < |styles| && Underline in styles[i]
    ensures r.subscript <==> exists i :: 0 <= i < |styles| && Subscript in styles[i]
  {
    var eff := Union(styles);
    Run(text, Bold in eff, Italic in eff, Underline in eff, Subscript in eff)
  }

  /// Everything the parser and its container hold: the style stack
  /// (`current_styles`), the paragraph stack, the current paragraph and the
  /// container's paragraphs.
  datatype State = State(styles: seq<set<Style>>, stack: seq<nat>, current: Option<nat>,
                         paragraphs: seq<Paragraph>)

  /// What holds of the parser between events.
  predicate Inv(s: State, ownsDefault: bool)
  {
    && (ownsDefault ==> |s.paragraphs| > 0)
    && (forall i :: 0 <= i < |s.stack| ==> s.stack[i] < |s.paragraphs|)
    && (s.current.Some? ==> s.current.value < |s.paragraphs|)
    && (s.current.None? ==> s.stack == [])
    && (s.stack != [] ==> s.current == Some(s.stack[|s.stack| - 1]))
  }

  /// A freshly constructed parser over a container holding `paragraphs`.
  function Initial(paragraphs: seq<Paragraph>): State
  {
    State([], [], None, paragraphs)
  }

  /// The paragraph that a `<p>` or a text event makes current when there is
  /// no current paragraph yet: the container's own first paragraph if it owns
  /// one, else a new paragraph appended to it. Returns its index and the
  /// container's paragraphs afterwards.
  function Materialize(paragraphs: seq<Paragraph>, ownsDefault: bool): (r: (nat, seq<Paragraph>))
    requires ownsDefault ==> |paragraphs| > 0
    ensures r.0 < |r.1| && paragraphs <= r.1
    ensures ownsDefault ==> r == (0, paragraphs)
    ensures !ownsDefault ==> r.1 == paragraphs + [[]] && r.0 == |paragraphs|
  {
    if ownsDefault then (0, paragraphs) else (|paragraphs|, paragraphs + [[]])
  }

  /// One event. `None` is the `IndexError` the source raises when a style end
  /// tag finds the style stack empty.
  function Step(s: State, ownsDefault: bool, e: Event): (r: Option<State>)
    requires Inv(s, ownsDefault)
    ensures r.None? <==> e.EndTag? && PopsStyle(e.tag) && s.styles == []
    ensures r.Some? ==> Inv(r.value, ownsDefault)
  {
    match e
    case StartTag(tag) =>
      if tag == "p" then
        var (index, paragraphs) :=
          if s.current.None? then Materialize(s.paragraphs, ownsDefault)
          else (|s.paragraphs|, s.paragraphs + [[]]);
        Some(State(s.styles + [TagStyle(tag)], s.stack + [index], Some(index), paragraphs))
      else
        Some(s.(styles := s.styles + [TagStyle(tag)]))
    case EndTag(tag) =>
      if PopsStyle(tag) then
        if s.styles == [] then None else Some(s.(styles := s.styles[..|s.styles| - 1]))
      else if tag == "p" && |s.stack| > 1 then
        var stack := s.stack[..|s.stack| - 1];
        Some(s.(stack := stack, current := Some(stack[|stack| - 1])))
      else
        Some(s)
    case Data(text) =>
      if text == "" then Some(s)
      else
        var (index, paragraphs) :=
          if s.current.Some? then (s.current.value, s.paragraphs)
          else Materialize(s.paragraphs, ownsDefault);
        Some(s.(current := Some(index),
                paragraphs := paragraphs[index := paragraphs[index] + [MakeRun(text, s.styles)]]))
  }

  /// The result of feeding a whole event list: the final state, or the state
  /// at the event (by index) that raised.
  datatype Outcome = Finished(state: State) | Raised(state: State, at: nat)

  /// Moves the index of a raising event `k` places to the right.
  function Shift(r: Outcome, k: nat): Outcome
  {
    if r.Raised? then Raised(r.state, r.at + k) else r
  }

  /// Feeds the events left to right, stopping at the first one that raises.
  function Feed(s: State, ownsDefault: bool, events: seq<Event>): (r: Outcome)
    requires Inv(s, ownsDefault)
    ensures Inv(r.state, ownsDefault)
    ensures r.Raised? ==> r.at < |events| && events[r.at].EndTag? && PopsStyle(events[r.at].tag)
                          && r.state.styles == []
    decreases |events|
  {
    if events == [] then Finished(s)
    else
      match Step(s, ownsDefault, events[0])
      case None => Raised(s, 0)
      case Some(t) => Shift(Feed(t, ownsDefault, events[1..]), 1)
  }

  /// `Feed` from position `i` of an event list takes one `Step` and moves on,
  /// or stops there if that step raises.
  lemma FeedAt(s: State, ownsDefault: bool, events: seq<Event>, i: nat)
    requires Inv(s, ownsDefault) && i < |events|
    ensures var r := Step(s, ownsDefault, events[i]);
            Shift(Feed(s, ownsDefault, events[i..]), i)
            == if r.None? then Raised(s, i) else Shift(Feed(r.value, ownsDefault, events[i + 1..]), i + 1)
  {
    assert events[i..][0] == events[i] && events[i..][1..] == events[i + 1..];
  }

  /// Each event type's effect on the style stack: every start tag pushes,
  /// every style end tag pops (raising on an empty stack), nothing else
  /// touches it.
  lemma StyleStackStep(s: State, ownsDefault: bool, e: Event)
    requires Inv(s, ownsDefault)
    ensures var r := Step(s, ownsDefault, e);
            && (e.StartTag? ==> r.Some? && r.value.styles == s.styles + [TagStyle(e.tag)])
            && (e.EndTag? && PopsStyle(e.tag) ==>
                  if s.styles == [] then r.None? else r.Some? && r.value.styles == s.styles[..|s.styles| - 1])
            && (e.Data? || (e.EndTag? && !PopsStyle(e.tag)) ==> r.Some? && r.value.styles == s.styles)
  {
  }

  /// `<p>`: the first paragraph opened while there is no current paragraph
  /// is the container's own one if it owns one; any other `<p>` appends a
  /// fresh paragraph. Either way it is pushed and becomes current, and an
  /// empty style map is pushed beside it.
  lemma OpenParagraphStep(s: State, ownsDefault: bool)
    requires Inv(s, ownsDefault)
    ensures var t := Step(s, ownsDefault, StartTag("p")).value;
            var c := t.current.value;
            && t.current.Some? && t.stack == s.stack + [c] && t.styles == s.styles + [{}]
            && (if s.current.None? && ownsDefault then c == 0 && t.paragraphs == s.paragraphs
                else c == |s.paragraphs| && t.paragraphs == s.paragraphs + [[]])
  {
  }

  /// `</p>` pops the paragraph stack only while it holds more than one
  /// paragraph, so it never fails and never empties a non-empty stack; it
  /// touches neither the styles nor the container.
  lemma CloseParagraphStep(s: State, ownsDefault: bool)
    requires Inv(s, ownsDefault)
    ensures var r := Step(s, ownsDefault, EndTag("p"));
            && r.Some?
            && r.value.paragraphs == s.paragraphs && r.value.styles == s.styles
            && (|s.stack| > 1 ==> r.value.stack == s.stack[..|s.stack| - 1]
                                  && r.value.current == Some(s.stack[|s.stack| - 2]))
            && (|s.stack| <= 1 ==> r.value == s)
  {
  }

  /// An empty text event changes nothing.
  lemma EmptyDataStep(s: State, ownsDefault: bool)
    requires Inv(s, ownsDefault)
    ensures Step(s, ownsDefault, Data("")) == Some(s)
  {
  }

  /// A non-empty text event appends exactly one run, carrying that text, to
  /// the current paragraph (taking it from the container first if there is
  /// none, without pushing it), and each flag of the run is set iff some map
  /// on the style stack sets it.
  lemma DataStep(s: State, ownsDefault: bool, text: string)
    requires Inv(s, ownsDefault) && text != ""
    ensures var t := Step(s, ownsDefault, Data(text)).value;
            var c := t.current.value;
            var before := if c < |s.paragraphs| then s.paragraphs[c] else [];
            && t.current.Some? && t.stack == s.stack && t.styles == s.styles
            && (s.current.Some? ==> t.current == s.current && |t.paragraphs| == |s.paragraphs|)
            && (s.current.None? && ownsDefault ==> c == 0 && |t.paragraphs| == |s.paragraphs|)
            && (s.current.None? && !ownsDefault ==> c == |s.paragraphs| && |t.paragraphs| == |s.paragraphs| + 1)
            && |t.paragraphs[c]| == |before| + 1 && t.paragraphs[c][..|before|] == before
            && (forall j :: 0 <= j < |s.paragraphs| && j != c ==> t.paragraphs[j] == s.paragraphs[j])
            && var r := t.paragraphs[c][|before|];
            && r.text == text
            && (r.bold <==> exists i :: 0 <= i < |s.styles| && Bold in s.styles[i])
            && (r.italic <==> exists i :: 0 <= i < |s.styles| && Italic in s.styles[i])
            && (r.underline <==> exists i :: 0 <= i < |s.styles| && Underline in s.styles[i])
            && (r.subscript <==> exists i :: 0 <= i < |s.styles| && Subscript in s.styles[i])
  {
  }

  /// Paragraphs `b` are paragraphs `a` with runs appended to some of them
  /// and possibly more paragraphs after them.
  predicate Extends(a: seq<Paragraph>, b: seq<Paragraph>)
  {
    |a| <= |b| && forall i :: 0 <= i < |a| ==> a[i] <= b[i]
  }

  /// Feeding events never removes or rewrites anything already in the
  /// container: it only appends runs and paragraphs.
  lemma {:induction false} FeedExtends(s: State, ownsDefault: bool, events: seq<Event>)
    requires Inv(s, ownsDefault)
    ensures Extends(s.paragraphs, Feed(s, ownsDefault, events).state.paragraphs)
    decreases |events|
  {
    if events != [] {
      var r := Step(s, ownsDefault, events[0]);
      if r.Some? {
        var t := r.value;
        assert Extends(s.paragraphs, t.paragraphs);
        FeedExtends(t, ownsDefault, events[1..]);
      }
    }
  }

  /// The number of `<p>` start tags in an event list.
  function CountOpen(events: seq<Event>): nat
  {
    if events == [] then 0
    else (if events[0] == StartTag("p") then 1 else 0) + CountOpen(events[1..])
  }

  /// The container gains at most one paragraph per `<p>`, plus one more
  /// only if it owns no default paragraph and nothing is current yet.
  lemma {:induction false} FeedGrowth(s: State, ownsDefault: bool, events: seq<Event>)
    requires Inv(s, ownsDefault)
    ensures |Feed(s, ownsDefault, events).state.paragraphs|
            <= |s.paragraphs| + CountOpen(events) + (if !ownsDefault && s.current.None? then 1 else 0)
    decreases |events|
  {
    if events != [] {
      var r := Step(s, ownsDefault, events[0]);
      if r.Some? {
        FeedGrowth(r.value, ownsDefault, events[1..]);
      }
    }
  }

  /// Every run in the paragraphs has non-empty text.
  predicate NoEmptyRuns(paragraphs: seq<Paragraph>)
  {
    forall i, j :: 0 <= i < |paragraphs| && 0 <= j < |paragraphs[i]| ==> paragraphs[i][j].text != ""
  }

  /// The interpreter never adds a zero-length run.
  lemma {:induction false} FeedNoEmptyRuns(s: State, ownsDefault: bool, events: seq<Event>)
    requires Inv(s, ownsDefault) && NoEmptyRuns(s.paragraphs)
    ensures NoEmptyRuns(Feed(s, ownsDefault, events).state.paragraphs)
    decreases |events|
  {
    if events != [] {
      var r := Step(s, ownsDefault, events[0]);
      if r.Some? {
        assert NoEmptyRuns(r.value.paragraphs);
        FeedNoEmptyRuns(r.value, ownsDefault, events[1..]);
      }
    }
  }

  /// Whether the event at `k` is a style end tag.
  predicate PopsAt(events: seq<Event>, k: nat)
    requires k < |events|
  {
    events[k].EndTag? && PopsStyle(events[k].tag)
  }

  /// How one event moves the style-stack depth.
  function Delta(e: Event): int
  {
    if e.StartTag? then 1 else if e.EndTag? && PopsStyle(e.tag) then -1 else 0
  }

  /// The style-stack depth after `events`, starting from depth `d`, counting
  /// +1 per start tag and -1 per style end tag.
  function Depth(d: int, events: seq<Event>): int
    decreases |events|
  {
    if events == [] then d else Depth(d + Delta(events[0]), events[1..])
  }

  lemma DepthPrefix(d: int, events: seq<Event>, k: nat)
    requires 1 <= k <= |events|
    ensures Depth(d, events[..k]) == Depth(d + Delta(events[0]), events[1..][..k - 1])
  {
    assert events[..k][1..] == events[1..][..k - 1];
  }

  /// What `FeedRaises` promises of an outcome `r` of feeding `events` from
  /// style depth `d`: it finishes exactly when every style end tag meets a
  /// positive depth, finishing at the final depth; and if it raises, it is
  /// at the first style end tag that meets depth zero.
  predicate RaisesAsDepthSays(d: int, events: seq<Event>, r: Outcome)
  {
    && (r.Finished? <==> forall k :: 0 <= k < |events| && PopsAt(events, k) ==> Depth(d, events[..k]) > 0)
    && (r.Finished? ==> |r.state.styles| == Depth(d, events))
    && (r.Raised? ==> r.at < |events| && PopsAt(events, r.at) && Depth(d, events[..r.at]) == 0
                      && forall k :: 0 <= k < r.at && PopsAt(events, k) ==> Depth(d, events[..k]) > 0)
  }

  /// If the first event does not pop an empty stack and no style end tag
  /// among the next `n - 1` events meets an empty stack, then none of the
  /// first `n` does.
  lemma PositiveUpTo(d: int, events: seq<Event>, n: nat)
    requires 1 <= n <= |events|
    requires PopsAt(events, 0) ==> d > 0
    requires forall k :: 0 <= k < n - 1 && PopsAt(events[1..], k) ==> Depth(d + Delta(events[0]), events[1..][..k]) > 0
    ensures forall k :: 0 <= k < n && PopsAt(events, k) ==> Depth(d, events[..k]) > 0
  {
    forall k | 0 <= k < n && PopsAt(events, k)
      ensures Depth(d, events[..k]) > 0
    {
      if k == 0 {
        assert events[..0] == [];
      } else {
        DepthPrefix(d, events, k);
        assert PopsAt(events[1..], k - 1);
      }
    }
  }

  /// An event that does not raise passes the promise for the rest of the
  /// events back to the whole list, one position further on.
  lemma RaisesShift(d: int, events: seq<Event>, r: Outcome)
    requires events != [] && (PopsAt(events, 0) ==> d > 0)
    requires RaisesAsDepthSays(d + Delta(events[0]), events[1..], r)
    ensures RaisesAsDepthSays(d, events, Shift(r, 1))
  {
    var rest := events[1..];
    if r.Finished? {
      assert forall k :: 0 <= k < |events| && PopsAt(events, k) ==> Depth(d, events[..k]) > 0 by {
        PositiveUpTo(d, events, |events|);
      }
    } else {
      assert forall k :: 0 <= k < r.at + 1 && PopsAt(events, k) ==> Depth(d, events[..k]) > 0 by {
        PositiveUpTo(d, events, r.at + 1);
      }
      assert Depth(d, events[..r.at + 1]) == 0 by {
        DepthPrefix(d, events, r.at + 1);
      }
      assert PopsAt(events, r.at + 1) by {
        assert rest[r.at] == events[r.at + 1];
      }
    }
  }

  /// Feeding raises exactly at the first style end tag met while the style
  /// stack is empty, that is, where more style end tags than start tags have
  /// been seen; otherwise it finishes with the style stack at that depth.
  lemma {:induction false} FeedRaises(s: State, ownsDefault: bool, events: seq<Event>)
    requires Inv(s, ownsDefault)
    ensures RaisesAsDepthSays(|s.styles|, events, Feed(s, ownsDefault, events))
    decreases |events|
  {
    var d := |s.styles|;
    if events == [] {
      return;
    }
    assert events[..0] == [];
    match Step(s, ownsDefault, events[0])
    case None =>
      assert Feed(s, ownsDefault, events) == Raised(s, 0);
      assert PopsAt(events, 0) && Depth(d, events[..0]) == 0;
    case Some(t) =>
      StyleStackStep(s, ownsDefault, events[0]);
      assert |t.styles| == d + Delta(events[0]);
      FeedRaises(t, ownsDefault, events[1..]);
      assert Feed(s, ownsDefault, events) == Shift(Feed(t, ownsDefault, events[1..]), 1);
      RaisesShift(d, events, Feed(t, ownsDefault, events[1..]));
  }

  /// A style end tag pops whatever map is on top: which of the six style
  /// tags it is makes no difference.
  lemma StyleCloseIgnoresName(s: State, ownsDefault: bool, tag1: string, tag2: string)
    requires Inv(s, ownsDefault) && PopsStyle(tag1) && PopsStyle(tag2)
    ensures Step(s, ownsDefault, EndTag(tag1)) == Step(s, ownsDefault, EndTag(tag2))
  {
  }

  /// So in `<b><p>x</b>y` the `</b>` pops the empty map of `<p>`, and `y`
  /// is still bold.
  lemma MismatchedCloseKeepsBold(s: State, ownsDefault: bool)
    requires Inv(s, ownsDefault)
    requires |s.styles| >= 2 && Bold in s.styles[|s.styles| - 2] && s.styles[|s.styles| - 1] == {}
    ensures var t := Step(s, ownsDefault, EndTag("b")).value;
            Bold in Union(t.styles) && MakeRun("y", t.styles).bold
  {
    var t := Step(s, ownsDefault, EndTag("b")).value;
    assert t.styles[|t.styles| - 1] == s.styles[|s.styles| - 2];
  }

  /// A render target: its paragraphs, and whether it owns a default first
  /// paragraph that the parser reuses instead of adding one.
  class Container {
    var paragraphs: seq<Paragraph>
    const ownsDefault: bool

    ghost predicate Valid()
      reads this
    {
      ownsDefault ==> |paragraphs| > 0
    }

    constructor (paragraphs: seq<Paragraph>, ownsDefault: bool)
      requires ownsDefault ==> |paragraphs| > 0
      ensures Valid()
      ensures this.paragraphs == paragraphs && this.ownsDefault == ownsDefault
    {
      this.paragraphs := paragraphs;
      this.ownsDefault := ownsDefault;
    }

    /// `add_paragraph`: appends an empty paragraph and returns its index.
    method AddParagraph() returns (index: nat)
      modifies this
      ensures paragraphs == old(paragraphs) + [[]]
      ensures index == |old(paragraphs)|
    {
      index := |paragraphs|;
      paragraphs := paragraphs + [[]];
    }

    /// `add_run` on the paragraph at `index`.
    method AddRun(index: nat, run: Run)
      requires index < |paragraphs|
      modifies this
      ensures paragraphs == old(paragraphs)[index := old(paragraphs)[index] + [run]]
    {
      paragraphs := paragraphs[index := paragraphs[index] + [run]];
    }
  }

  /// `HTMLToWordParser`: the handlers for the three kinds of event.
  class Parser {
    var currentStyles: seq<set<Style>>
    var paragraphStack: seq<nat>
    var currentParagraph: Option<nat>
    const container: Container

    ghost function Snapshot(): State
      reads this, container
    {
      State(currentStyles, paragraphStack, currentParagraph, container.paragraphs)
    }

    ghost predicate Valid()
      reads this, container
    {
      Inv(Snapshot(), container.ownsDefault)
    }

    constructor (container: Container)
      requires container.Valid()
      ensures this.container == container
      ensures Valid() && Snapshot() == Initial(container.paragraphs)
    {
      currentStyles := [];
      paragraphStack := [];
      currentParagraph := None;
      this.container := container;
    }

    /// `handle_starttag`: every start tag pushes a style map; `<p>` also
    /// opens a paragraph.
    method HandleStartTag(tag: string)
      requires Valid()
      modifies this, container
      ensures Valid()
      ensures Some(Snapshot()) == Step(old(Snapshot()), container.ownsDefault, StartTag(tag))
    {
      var style := TagStyle(tag);
      if tag == "p" {
        var paragraph: nat;
        if currentParagraph.None? && container.ownsDefault {
          paragraph := 0;
        } else {
          paragraph := container.AddParagraph();
        }
        paragraphStack := paragraphStack + [paragraph];
        currentParagraph := Some(paragraph);
      }
      currentStyles := currentStyles + [style];
    }

    /// `handle_endtag`: a style end tag pops the style stack, whatever is on
    /// top; `raised` is the `IndexError` of popping an empty stack. `</p>`
    /// pops the paragraph stack only while it holds more than one paragraph.
    method HandleEndTag(tag: string) returns (raised: bool)
      requires Valid()
      modifies this
      ensures Valid()
      ensures var r := Step(old(Snapshot()), container.ownsDefault, EndTag(tag));
              raised == r.None? && (if raised then Snapshot() == old(Snapshot()) else Snapshot() == r.value)
    {
      raised := false;
      if PopsStyle(tag) {
        if currentStyles == [] {
          raised := true;
          return;
        }
        currentStyles := currentStyles[..|currentStyles| - 1];
      } else if tag == "p" {
        if |paragraphStack| > 1 {
          paragraphStack := paragraphStack[..|paragraphStack| - 1];
          currentParagraph := Some(paragraphStack[|paragraphStack| - 1]);
        }
      }
    }

    /// The loop of `handle_data` that merges the style maps from the
    /// innermost outwards into one effective style.
    method CurrentStyle() returns (style: set<Style>)
      ensures style == Union(currentStyles)
    {
      style := {};
      var i := |currentStyles|;
      while i > 0
        invariant 0 <= i <= |currentStyles|
        invariant style == Union(currentStyles[i..])
      {
        i := i - 1;
        assert currentStyles[i..][1..] == currentStyles[i + 1..];
        style := style + currentStyles[i];
      }
    }

    /// `handle_data`: empty text does nothing; otherwise one run with the
    /// effective style goes to the current paragraph, which is first taken
    /// from the container if there is none yet.
    method HandleData(text: string)
      requires Valid()
      modifies this, container
      ensures Valid()
      ensures Some(Snapshot()) == Step(old(Snapshot()), container.ownsDefault, Data(text))
    {
      if text == "" {
        return;
      }
      var style := CurrentStyle();
      if currentParagraph.None? {
        if container.ownsDefault {
          currentParagraph := Some(0);
        } else {
          var paragraph := container.AddParagraph();
          currentParagraph := Some(paragraph);
        }
      }
      container.AddRun(currentParagraph.value,
                       Run(text, Bold in style, Italic in style, Underline in style, Subscript in style));
    }

    /// The tokenizer's dispatch of one event to its handler; `raised` is
    /// the `IndexError` of a style end tag on an empty style stack.
    method Handle(e: Event) returns (raised: bool)
      requires Valid()
      modifies this, container
      ensures Valid()
      ensures var r := Step(old(Snapshot()), container.ownsDefault, e);
              raised == r.None? && (if raised then Snapshot() == old(Snapshot()) else Snapshot() == r.value)
    {
      raised := false;
      match e {
        case StartTag(tag) =>
          HandleStartTag(tag);
        case EndTag(tag) =>
          raised := HandleEndTag(tag);
        case Data(text) =>
          HandleData(text);
      }
    }

    /// `parse`: a new parser fed the whole event list. `raisedAt` is the
    /// index of the event that raised, if any; the container keeps what was
    /// written before it.
    static method Parse(events: seq<Event>, container: Container) returns (raisedAt: Option<nat>)
      requires container.Valid()
      modifies container
      ensures var r := Feed(Initial(old(container.paragraphs)), container.ownsDefault, events);
              container.paragraphs == r.state.paragraphs
              && raisedAt == (if r.Raised? then Some(r.at) else None)
    {
      var parser := new Parser(container);
      ghost var own := container.ownsDefault;
      ghost var outcome := Feed(parser.Snapshot(), own, events);
      var i := 0;
      while i < |events|
        invariant 0 <= i <= |events|
        invariant parser.container == container && parser.Valid()
        invariant outcome == Shift(Feed(parser.Snapshot(), own, events[i..]), i)
        decreases |events| - i
      {
        ghost var before := parser.Snapshot();
        ghost var step := Step(before, own, events[i]);
        var raised := parser.Handle(events[i]);
        if raised {
          assert outcome == Raised(before, i) by {
            FeedAt(before, own, events, i);
          }
          return Some(i);
        }
        assert outcome == Shift(Feed(parser.Snapshot(), own, events[i + 1..]), i + 1) by {
          FeedAt(before, own, events, i);
          assert parser.Snapshot() == step.value;
        }
        i := i + 1;
      }
      assert events[i..] == [];
      return None;
    }
  }
}
