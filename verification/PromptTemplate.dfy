/** `{{word}}` templates: scanning, rendering and variable checks (backend/ai_intelligence/services.py). */
module PromptTemplate {
  import opened Common

  datatype Segment = Literal(c: char) | Hole(name: string)

  /** The regular expression's word class; braces are not word characters. */
  ghost predicate WordClass(word: char -> bool) {
    !word('{') && !word('}')
  }

  function WordRun(word: char -> bool, t: string): (n: nat)
    ensures n <= |t| && (forall i :: 0 <= i < n ==> word(t[i])) && (n < |t| ==> !word(t[n]))
  {
    if t == "" || !word(t[0]) then 0 else 1 + WordRun(word, t[1..])
  }

  /** The placeholder the pattern matches at the start of t, if any. */
  function HoleAt(word: char -> bool, t: string): (r: Option<string>)
    ensures r.Some? ==> r.value != "" && |r.value| + 4 <= |t|
  {
    if !("{{" <= t) then None
    else
      var n := WordRun(word, t[2..]);
      if n > 0 && "}}" <= t[2 + n..] then Some(t[2..2 + n]) else None
  }

  /** One left-to-right pass of the pattern over a template. */
  function Scan(word: char -> bool, t: string): seq<Segment>
    decreases |t|
  {
    if t == "" then []
    else match HoleAt(word, t)
      case Some(name) => [Hole(name)] + Scan(word, t[|name| + 4..])
      case None => [Literal(t[0])] + Scan(word, t[1..])
  }

  function SourceOf(s: Segment): string {
    match s
    case Literal(c) => [c]
    case Hole(name) => "{{" + name + "}}"
  }

  /** Substituting v(name) for each placeholder. */
  function Fill(segments: seq<Segment>, v: string -> string): string {
    if segments == [] then ""
    else (match segments[0] case Literal(c) => [c] case Hole(name) => v(name)) + Fill(segments[1..], v)
  }

  /** The template the segments came from. */
  function Source(segments: seq<Segment>): string {
    if segments == [] then "" else SourceOf(segments[0]) + Source(segments[1..])
  }

  // ---------------------------------------------------------------- what the scan means

  predicate Matches(word: char -> bool, t: string, name: string) {
    name != "" && (forall i :: 0 <= i < |name| ==> word(name[i])) && "{{" + name + "}}" <= t
  }

  lemma HoleAtIsTheMatch(word: char -> bool, t: string, name: string)
    requires WordClass(word)
    ensures HoleAt(word, t) == Some(name) <==> Matches(word, t, name)
  {
    if Matches(word, t, name) {
      var whole := "{{" + name + "}}";
      assert whole[0] == '{' && whole[1] == '{';
      assert "{{" <= t;
      var rest := t[2..];
      assert forall i :: 0 <= i < |name| ==> rest[i] == whole[2 + i] == name[i];
      assert rest[|name|] == whole[2 + |name|] == '}';
      assert rest[|name| + 1] == whole[3 + |name|] == '}';
      var n := WordRun(word, rest);
      assert n == |name|;
      assert "}}" <= t[2 + n..];
      assert t[2..2 + n] == name;
    }
  }

  /** Literals and placeholders in order, never passing over a place where the pattern matches. */
  ghost predicate LeftmostSplit(word: char -> bool, segments: seq<Segment>, t: string) {
    && Source(segments) == t
    && forall i :: 0 <= i < |segments| ==>
         match segments[i]
         case Hole(name) => name != "" && forall j :: 0 <= j < |name| ==> word(name[j])
         case Literal(_) => forall name :: !Matches(word, Source(segments[i..]), name)
  }

  lemma LeftmostSplitTail(word: char -> bool, segments: seq<Segment>, t: string)
    requires segments != [] && LeftmostSplit(word, segments, t)
    ensures LeftmostSplit(word, segments[1..], Source(segments[1..]))
  {
    var tail := segments[1..];
    forall i | 0 <= i < |tail|
      ensures match tail[i]
        case Hole(name) => name != "" && forall j :: 0 <= j < |name| ==> word(name[j])
        case Literal(_) => forall name :: !Matches(word, Source(tail[i..]), name)
    {
      assert tail[i] == segments[i + 1] && tail[i..] == segments[i + 1..];
    }
  }

  lemma LeftmostSplitCons(word: char -> bool, s: Segment, tail: seq<Segment>, t: string)
    requires LeftmostSplit(word, tail, Source(tail)) && t == SourceOf(s) + Source(tail)
    requires match s
      case Hole(name) => name != "" && forall j :: 0 <= j < |name| ==> word(name[j])
      case Literal(_) => forall name :: !Matches(word, t, name)
    ensures LeftmostSplit(word, [s] + tail, t)
  {
    var all := [s] + tail;
    assert all[1..] == tail && all[0..] == all;
    forall i | 0 <= i < |all|
      ensures match all[i]
        case Hole(name) => name != "" && forall j :: 0 <= j < |name| ==> word(name[j])
        case Literal(_) => forall name :: !Matches(word, Source(all[i..]), name)
    {
      if i > 0 {
        assert all[i..] == tail[i - 1..];
      }
    }
  }

  lemma {:induction false} ScanIsASplit(word: char -> bool, t: string)
    requires WordClass(word)
    ensures LeftmostSplit(word, Scan(word, t), t)
    decreases |t|
  {
    hide Matches, LeftmostSplit;
    if t == "" {
      EmptySplit(word, []);
    } else {
      var hole := HoleAt(word, t);
      var first := if hole.Some? then Hole(hole.value) else Literal(t[0]);
      var rest := t[|SourceOf(first)|..];
      FirstSegment(word, t);
      ScanIsASplit(word, rest);
      SplitSource(word, Scan(word, rest), rest);
      LeftmostSplitCons(word, first, Scan(word, rest), t);
    }
  }

  lemma {:induction false} SplitIsTheScan(word: char -> bool, t: string, segments: seq<Segment>)
    requires WordClass(word) && LeftmostSplit(word, segments, t)
    ensures segments == Scan(word, t)
    decreases |t|
  {
    hide Matches, LeftmostSplit;
    if t == "" {
      EmptySplit(word, segments);
    } else {
      FirstSegment(word, t);
      SplitStartsRight(word, segments, t);
      LeftmostSplitTail(word, segments, t);
      SplitSource(word, segments, t);
      SplitIsTheScan(word, Source(segments[1..]), segments[1..]);
      assert segments == [segments[0]] + segments[1..];
    }
  }

  /** The scan is the one leftmost, non-overlapping split of the template, and it loses nothing. */
  lemma ScanIsTheLeftmostSplit(word: char -> bool, t: string, segments: seq<Segment>)
    requires WordClass(word)
    ensures LeftmostSplit(word, segments, t) <==> segments == Scan(word, t)
  {
    hide LeftmostSplit, Scan;
    ScanIsASplit(word, t);
    if LeftmostSplit(word, segments, t) {
      SplitIsTheScan(word, t, segments);
    }
  }

  lemma EmptySplit(word: char -> bool, segments: seq<Segment>)
    ensures LeftmostSplit(word, segments, "") <==> segments == []
  {
    if segments != [] {
      assert |SourceOf(segments[0])| > 0;
    }
  }

  lemma SplitSource(word: char -> bool, segments: seq<Segment>, t: string)
    requires LeftmostSplit(word, segments, t)
    ensures Source(segments) == t
  {
  }

  /** The scan's first segment, as a fact about matches. */
  lemma FirstSegment(word: char -> bool, t: string)
    requires WordClass(word) && t != ""
    ensures match HoleAt(word, t)
      case Some(name) =>
        name != "" && (forall j :: 0 <= j < |name| ==> word(name[j]))
          && t == SourceOf(Hole(name)) + t[|SourceOf(Hole(name))|..]
      case None => (forall name :: !Matches(word, t, name)) && t == [t[0]] + t[1..]
  {
    match HoleAt(word, t)
    case Some(name) => HoleAtIsTheMatch(word, t, name);
    case None =>
      forall name ensures !Matches(word, t, name) {
        HoleAtIsTheMatch(word, t, name);
      }
  }

  /** Any leftmost split starts as the scan does. */
  lemma SplitStartsRight(word: char -> bool, segments: seq<Segment>, t: string)
    requires WordClass(word) && t != "" && LeftmostSplit(word, segments, t)
    ensures segments != []
    ensures segments[0] == (match HoleAt(word, t) case Some(name) => Hole(name) case None => Literal(t[0]))
  {
    assert segments[0..] == segments;
    match segments[0]
    case Hole(name) =>
      assert Matches(word, t, name);
      HoleAtIsTheMatch(word, t, name);
    case Literal(c) =>
      if HoleAt(word, t).Some? {
        HoleAtIsTheMatch(word, t, HoleAt(word, t).value);
      }
  }

  // ---------------------------------------------------------------- rendering

  type NonEmpty = s: string | s != "" witness "-"

  /** A variable definition: a dict with or without a usable default, or something that is not a dict. */
  datatype Definition = Dict(default: Option<NonEmpty>) | NotDict

  type Definitions = map<string, Definition>

  function Names(word: char -> bool, t: string): set<string> {
    set s | s in Scan(word, t) && s.Hole? :: s.name
  }

  function Required(defs: Definitions): set<string> {
    set name | name in defs && defs[name].Dict? && defs[name].default.None?
  }

  function ValueOf(defs: Definitions, context: map<string, string>, name: string): string {
    if name in context then context[name]
    else if name in defs && defs[name].Dict? && defs[name].default.Some? then defs[name].default.value
    else ""
  }

  datatype Rendering =
    | Rendered(text: string)
    | NoActiveVersion
    | MissingVariables(names: set<string>)
    | DefinitionIsNotADict

  /** `render_prompt`, once the active template is at hand; the default is looked up even when it is not needed. */
  function Render(word: char -> bool, t: string, defs: Definitions, context: map<string, string>): Rendering {
    var missing := Required(defs) - context.Keys;
    if missing != {} then MissingVariables(missing)
    else if exists name :: name in Names(word, t) && name in defs && defs[name].NotDict? then DefinitionIsNotADict
    else Rendered(Fill(Scan(word, t), name => ValueOf(defs, context, name)))
  }

  function Undeclared(word: char -> bool, t: string, defs: Definitions): set<string> {
    Names(word, t) - defs.Keys
  }

  function Unused(word: char -> bool, t: string, defs: Definitions): set<string> {
    defs.Keys - Names(word, t)
  }

  /** `validate_prompt_variables` returns no warning. */
  predicate NoWarnings(word: char -> bool, t: string, defs: Definitions) {
    Undeclared(word, t, defs) == {} && Unused(word, t, defs) == {}
  }

  /** The check is content exactly when the declared variables are the ones used. */
  lemma NoWarningsIff(word: char -> bool, t: string, defs: Definitions)
    ensures NoWarnings(word, t, defs) <==> forall name :: name in Names(word, t) <==> name in defs
  {
    hide Names;
    if NoWarnings(word, t, defs) {
      forall name ensures name in Names(word, t) <==> name in defs {
        assert name in Names(word, t) && name !in defs ==> name in Undeclared(word, t, defs);
        assert name in defs && name !in Names(word, t) ==> name in Unused(word, t, defs);
      }
    }
  }

  /** Rendering succeeds exactly when no required variable is missing and no used definition is a non-dict. */
  lemma RenderSucceedsIff(word: char -> bool, t: string, defs: Definitions, context: map<string, string>)
    ensures Render(word, t, defs, context).Rendered? <==>
      && (forall name :: name in defs && defs[name].Dict? && defs[name].default.None? ==> name in context)
      && (forall name :: name in Names(word, t) && name in defs ==> defs[name].Dict?)
  {
    if forall name :: name in defs && defs[name].Dict? && defs[name].default.None? ==> name in context {
      assert Required(defs) - context.Keys == {};
    } else {
      var name :| name in defs && defs[name].Dict? && defs[name].default.None? && name !in context;
      assert name in Required(defs) - context.Keys;
    }
  }

  /** A rendered placeholder is left without value or default exactly when it is undeclared and not in the context. */
  lemma BlankIffUndeclared(word: char -> bool, t: string, defs: Definitions, context: map<string, string>, name: string)
    requires Render(word, t, defs, context).Rendered? && name in Names(word, t)
    ensures name !in context && !(name in defs && defs[name].Dict? && defs[name].default.Some?)
      <==> name !in context && name in Undeclared(word, t, defs)
  {
    RenderSucceedsIff(word, t, defs, context);
  }

  /** With no warnings, whatever renders gives every placeholder a context value or a non-empty default. */
  lemma CheckedTemplatesHaveNoBlanks(word: char -> bool, t: string, defs: Definitions, context: map<string, string>,
      name: string)
    requires NoWarnings(word, t, defs) && Render(word, t, defs, context).Rendered? && name in Names(word, t)
    ensures name in context || ValueOf(defs, context, name) != ""
  {
    BlankIffUndeclared(word, t, defs, context, name);
  }

  // ---------------------------------------------------------------- one pass

  lemma {:induction false} FillConcat(a: seq<Segment>, b: seq<Segment>, v: string -> string)
    ensures Fill(a + b, v) == Fill(a, v) + Fill(b, v)
  {
    if a == [] {
      assert a + b == b;
    } else {
      assert (a + b)[1..] == a[1..] + b;
      FillConcat(a[1..], b, v);
    }
  }

  /** Each value stands in the output verbatim, braces and all, right after what precedes its placeholder. */
  lemma ValuesAreVerbatim(segments: seq<Segment>, v: string -> string, i: nat)
    requires i < |segments| && segments[i].Hole?
    ensures var before := Fill(segments[..i], v);
      var value := v(segments[i].name);
      Fill(segments, v) == before + value + Fill(segments[i + 1..], v)
  {
    assert segments == segments[..i] + segments[i..];
    FillConcat(segments[..i], segments[i..], v);
    assert segments[i..][1..] == segments[i + 1..];
  }

  /** A template whose values are its own placeholders renders to itself: nothing is expanded twice. */
  lemma {:induction false} FillWithPlaceholders(segments: seq<Segment>)
    ensures Fill(segments, name => "{{" + name + "}}") == Source(segments)
  {
    if segments != [] {
      FillWithPlaceholders(segments[1..]);
    }
  }

  lemma RenderedPlaceholdersStay(word: char -> bool, t: string, context: map<string, string>)
    requires WordClass(word)
    requires context.Keys == Names(word, t) && forall name :: name in context ==> context[name] == "{{" + name + "}}"
    ensures Render(word, t, map[], context) == Rendered(t)
  {
    var segments := Scan(word, t);
    ScanIsTheLeftmostSplit(word, t, segments);
    FillWithPlaceholders(segments);
    RenderSucceedsIff(word, t, map[], context);
    SameFill(segments, name => ValueOf(map[], context, name), name => "{{" + name + "}}");
  }

  lemma {:induction false} SameFill(segments: seq<Segment>, v: string -> string, w: string -> string)
    requires forall s :: s in segments && s.Hole? ==> v(s.name) == w(s.name)
    ensures Fill(segments, v) == Fill(segments, w)
  {
    if segments != [] {
      SameFill(segments[1..], v, w);
    }
  }
}
