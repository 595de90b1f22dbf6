/**
 * The control sequences the input-mode tracker recognises, as its regular expression finds them, and an
 * independent character-by-character automaton for the same language.
 */
module ControlSequences {
  import opened Options
  import opened Text

  const ESC: char := 27 as char

  /** One match of the pattern: `ESC [ prefix? params u`, or `ESC [ ? params h|l`. */
  datatype Sequence =
    | Kitty(leader: Option<char>, params: string)
    | PrivateMode(params: string, final: char)
  {
    function Prefix(): Option<char> {
      if Kitty? then leader else Some('?')
    }

    function Final(): char {
      if Kitty? then 'u' else final
    }
  }

  predicate IsParam(c: char) {
    IsDigit(c) || c == ';'
  }

  predicate IsPrefix(c: char) {
    c == '<' || c == '>' || c == '=' || c == '?'
  }

  predicate AllParams(s: string) {
    forall i | 0 <= i < |s| :: IsParam(s[i])
  }

  function PrefixText(p: Option<char>): string {
    if p.Some? then [p.value] else ""
  }

  /** `ESC [ prefix? params`: a sequence that still lacks its final character. */
  function Opening(p: Option<char>, params: string): string {
    [ESC, '['] + PrefixText(p) + params
  }

  /** The grammar of the pattern. */
  predicate WellFormed(q: Sequence) {
    && (q.Prefix().Some? ==> IsPrefix(q.Prefix().value))
    && AllParams(q.params)
    && (q.PrivateMode? ==> q.final == 'h' || q.final == 'l')
  }

  function Render(q: Sequence): string {
    Opening(q.Prefix(), q.params) + [q.Final()]
  }

  /** The length of the longest run of parameter characters at the start of `w`. */
  function ParamRun(w: string): (n: nat)
    ensures n <= |w| && AllParams(w[..n]) && (n < |w| ==> !IsParam(w[n]))
  {
    if w != "" && IsParam(w[0]) then 1 + ParamRun(w[1..]) else 0
  }

  function LeadingPrefix(w: string): Option<char> {
    if w != "" && IsPrefix(w[0]) then Some(w[0]) else None
  }

  /** The sequence the pattern matches at the first character of `w`, if any. */
  function MatchAt(w: string): Option<Sequence> {
    if |w| < 2 || w[0] != ESC || w[1] != '[' then None
    else
      var p := LeadingPrefix(w[2..]);
      var body := w[2 + |PrefixText(p)|..];
      var n := ParamRun(body);
      if n == |body| then None
      else if body[n] == 'u' then Some(Kitty(p, body[..n]))
      else if p == Some('?') && (body[n] == 'h' || body[n] == 'l') then Some(PrivateMode(body[..n], body[n]))
      else None
  }

  lemma ParamRunStops(params: string, final: char, rest: string)
    requires AllParams(params) && !IsParam(final)
    ensures ParamRun(params + [final] + rest) == |params|
  {
    var body, n := params + [final] + rest, |params|;
    assert body[n] == final;
    assert forall i | 0 <= i < n :: body[i] == params[i];
    assert forall i | 0 <= i < ParamRun(body) :: body[..ParamRun(body)][i] == body[i];
  }

  lemma RenderShape(q: Sequence, rest: string)
    requires WellFormed(q)
    ensures var w, k := Render(q) + rest, 2 + |PrefixText(q.Prefix())|;
            && w[0] == ESC && w[1] == '['
            && LeadingPrefix(w[2..]) == q.Prefix()
            && w[k..] == q.params + [q.Final()] + rest
  {
    var w := Render(q) + rest;
    if q.Prefix().None? {
      assert w[2..] == q.params + [q.Final()] + rest;
      assert q.params != "" ==> w[2] == q.params[0];
    }
  }

  lemma GrammarMatches(w: string, q: Sequence)
    requires WellFormed(q) && Render(q) <= w
    ensures MatchAt(w) == Some(q)
  {
    hide WellFormed, LeadingPrefix, PrefixText;
    var rest := w[|Render(q)|..];
    assert w == Render(q) + rest;
    RenderShape(q, rest);
    FinalIsNoParam(q);
    ParamRunStops(q.params, q.Final(), rest);
    assert (q.params + [q.Final()] + rest)[..|q.params|] == q.params;
  }

  lemma FinalIsNoParam(q: Sequence)
    requires WellFormed(q)
    ensures AllParams(q.params) && !IsParam(q.Final())
    ensures q.PrivateMode? ==> q.final == 'h' || q.final == 'l'
  {
  }

  lemma MatchHasGrammar(w: string)
    requires MatchAt(w).Some?
    ensures WellFormed(MatchAt(w).value) && Render(MatchAt(w).value) <= w
  {
    var q := MatchAt(w).value;
    var k := 2 + |PrefixText(q.Prefix())|;
    var n := ParamRun(w[k..]);
    assert w[..k] == [ESC, '['] + PrefixText(q.Prefix());
    assert w[..k + n + 1] == w[..k] + w[k..][..n] + [w[k..][n]];
  }

  /** The matcher is exactly the grammar: it finds `q` at the start of `w` iff `q`'s text stands there. */
  lemma MatchAtIsGrammar(w: string, q: Sequence)
    ensures MatchAt(w) == Some(q) <==> WellFormed(q) && Render(q) <= w
  {
    if MatchAt(w) == Some(q) {
      MatchHasGrammar(w);
    } else if WellFormed(q) && Render(q) <= w {
      GrammarMatches(w, q);
    }
  }

  /** The first position at or behind `from` where the pattern matches, or the end of the text. */
  function Find(w: string, from: nat): (i: nat)
    requires from <= |w|
    ensures from <= i <= |w|
    ensures forall j | from <= j < i :: MatchAt(w[j..]).None?
    ensures i < |w| ==> MatchAt(w[i..]).Some?
    decreases |w| - from
  {
    if from == |w| || MatchAt(w[from..]).Some? then from else Find(w, from + 1)
  }

  /** Where a match found at `i` ends. */
  function MatchEnd(w: string, i: nat): (e: nat)
    requires i < |w| && MatchAt(w[i..]).Some?
    ensures i < e <= |w|
  {
    MatchHasGrammar(w[i..]);
    i + |Render(MatchAt(w[i..]).value)|
  }

  /** All matches of a global search that starts at `from`, in order. */
  function Matches(w: string, from: nat): seq<Sequence>
    requires from <= |w|
    decreases |w| - from
  {
    var i := Find(w, from);
    if i == |w| then [] else [MatchAt(w[i..]).value] + Matches(w, MatchEnd(w, i))
  }

  /** Where the last match of that search ends, or `from` if there is none. */
  function LastEnd(w: string, from: nat): (e: nat)
    requires from <= |w|
    ensures from <= e <= |w|
    decreases |w| - from
  {
    var i := Find(w, from);
    if i == |w| then from else LastEnd(w, MatchEnd(w, i))
  }

  // ---------------------------------------------------------------------------------------------
  // The reference automaton

  datatype Scan =
    | Ground
    | Escape
    | Csi(prefix: Option<char>, params: string)

  function Next(s: Scan, c: char): Scan {
    if c == ESC then Escape
    else
      match s
      case Ground => Ground
      case Escape => if c == '[' then Csi(None, "") else Ground
      case Csi(p, params) =>
        if p.None? && params == "" && IsPrefix(c) then Csi(Some(c), "")
        else if IsParam(c) then Csi(p, params + [c])
        else Ground
  }

  function Emit(s: Scan, c: char): seq<Sequence> {
    match s
    case Csi(p, params) =>
      if c == 'u' then [Kitty(p, params)]
      else if p == Some('?') && (c == 'h' || c == 'l') then [PrivateMode(params, c)]
      else []
    case _ => []
  }

  function EndState(s: Scan, w: string): Scan
    decreases |w|
  {
    if w == "" then s else EndState(Next(s, w[0]), w[1..])
  }

  function Emitted(s: Scan, w: string): seq<Sequence>
    decreases |w|
  {
    if w == "" then [] else Emit(s, w[0]) + Emitted(Next(s, w[0]), w[1..])
  }

  /** A run over `a + b` is a run over `a` followed by a run over `b`. */
  lemma {:induction false} RunConcat(s: Scan, a: string, b: string)
    ensures EndState(s, a + b) == EndState(EndState(s, a), b)
    ensures Emitted(s, a + b) == Emitted(s, a) + Emitted(EndState(s, a), b)
    decreases |a|
  {
    if a == "" {
      assert a + b == b;
    } else {
      assert (a + b)[1..] == a[1..] + b;
      RunConcat(Next(s, a[0]), a[1..], b);
    }
  }

  /** Text without ESC leaves the ground state alone. */
  lemma {:induction false} GroundSkips(w: string)
    requires ESC !in w
    ensures EndState(Ground, w) == Ground && Emitted(Ground, w) == []
  {
    if w != "" {
      GroundSkips(w[1..]);
    }
  }

  lemma {:induction false} ParamsCollect(p: Option<char>, params: string, more: string)
    requires AllParams(more)
    ensures EndState(Csi(p, params), more) == Csi(p, params + more)
    ensures Emitted(Csi(p, params), more) == []
    decreases |more|
  {
    if more == "" {
      assert params + more == params;
    } else {
      assert IsParam(more[0]);
      assert AllParams(more[1..]) by {
        forall i | 0 <= i < |more| - 1 ensures IsParam(more[1..][i]) {
          assert more[1..][i] == more[i + 1];
        }
      }
      ParamsCollect(p, params + [more[0]], more[1..]);
      assert params + [more[0]] + more[1..] == params + more;
    }
  }

  /** From any state, an unfinished sequence is collected and nothing is emitted after its ESC. */
  lemma OpeningCollects(s: Scan, p: Option<char>, params: string)
    requires (p.Some? ==> IsPrefix(p.value)) && AllParams(params)
    ensures EndState(s, Opening(p, params)) == Csi(p, params)
    ensures Emitted(s, Opening(p, params)) == []
  {
    var head := [ESC, '['] + PrefixText(p);
    RunConcat(s, [ESC, '['], PrefixText(p));
    assert [ESC, '['][1..] == ['['] && ['['][1..] == "";
    assert p.Some? ==> [p.value][1..] == "";
    RunConcat(s, head, params);
    ParamsCollect(p, "", params);
    assert "" + params == params;
  }

  /** From any state, the text of a sequence emits that sequence and ends in the ground state. */
  lemma RenderEmits(s: Scan, q: Sequence)
    requires WellFormed(q)
    ensures EndState(s, Render(q)) == Ground && Emitted(s, Render(q)) == [q]
  {
    OpeningCollects(s, q.Prefix(), q.params);
    RunConcat(s, Opening(q.Prefix(), q.params), [q.Final()]);
    assert [q.Final()][1..] == "";
  }

  /** Which text a state stands for. */
  function Held(s: Scan): string {
    match s
    case Ground => ""
    case Escape => [ESC]
    case Csi(p, params) => Opening(p, params)
  }

  predicate ValidScan(s: Scan) {
    s.Csi? ==> (s.prefix.Some? ==> IsPrefix(s.prefix.value)) && AllParams(s.params)
  }

  predicate IsSuffix(t: string, w: string) {
    |t| <= |w| && w[|w| - |t|..] == t
  }

  lemma HeldGrows(s: Scan, c: char)
    requires ValidScan(s)
    ensures ValidScan(Next(s, c))
    ensures Held(Next(s, c)) == Held(s) + [c] || Held(Next(s, c)) == "" || Held(Next(s, c)) == [c]
  {
  }

  /** A state is valid and is the end of the text it was reached with. */
  lemma {:induction false} HeldIsSuffix(w: string)
    ensures ValidScan(EndState(Ground, w)) && IsSuffix(Held(EndState(Ground, w)), w)
  {
    if w != "" {
      var u, c := w[..|w| - 1], w[|w| - 1];
      assert w == u + [c];
      HeldIsSuffix(u);
      RunConcat(Ground, u, [c]);
      var s := EndState(Ground, u);
      assert EndState(s, [c]) == Next(s, c) by { assert [c][1..] == ""; }
      HeldGrows(s, c);
      assert w[|u| - |Held(s)|..] == Held(s) + [c];
      assert w[|w| - 1..] == [c];
    }
  }

  /** The position of the first character that makes the automaton emit. */
  lemma {:induction false} FirstEmission(s: Scan, w: string) returns (k: nat)
    requires Emitted(s, w) != []
    ensures k < |w| && Emit(EndState(s, w[..k]), w[k]) != []
    decreases |w|
  {
    if Emit(s, w[0]) != [] {
      k := 0;
    } else {
      var j := FirstEmission(Next(s, w[0]), w[1..]);
      k := j + 1;
      assert w[..k][1..] == w[1..][..j];
    }
  }

  lemma EmissionCompletes(s: Scan, c: char)
    requires ValidScan(s) && Emit(s, c) != []
    ensures WellFormed(Emit(s, c)[0]) && Render(Emit(s, c)[0]) == Held(s) + [c]
  {
  }

  /** Whatever the automaton emits stands in its text. */
  lemma EmissionHasText(v: string) returns (at: nat, q: Sequence)
    requires Emitted(Ground, v) != []
    ensures at < |v| && WellFormed(q) && Render(q) <= v[at..]
  {
    var k := FirstEmission(Ground, v);
    var u := v[..k];
    HeldIsSuffix(u);
    var s := EndState(Ground, u);
    EmissionCompletes(s, v[k]);
    q := Emit(s, v[k])[0];
    at := k - |Held(s)|;
    assert u[at..] == v[at..k] == Held(s);
    assert v[at..k + 1] == v[at..k] + [v[k]];
    assert v[at..][..k + 1 - at] == v[at..k + 1];
  }

  /** Within a stretch of a longer text, an emission is a match of the pattern. */
  lemma EmissionIsMatch(w: string, from: nat, to: nat) returns (i: nat)
    requires from <= to <= |w|
    requires Emitted(Ground, w[from..to]) != []
    ensures from <= i < to && MatchAt(w[i..]).Some?
  {
    var at, q := EmissionHasText(w[from..to]);
    i := from + at;
    assert w[i..][..to - i] == w[from..to][at..];
    GrammarMatches(w[i..], q);
  }

  /** A stretch in which the search finds nothing makes the automaton emit nothing. */
  lemma SkippedIsSilent(w: string, from: nat, to: nat)
    requires from <= to <= |w|
    requires forall j | from <= j < to :: MatchAt(w[j..]).None?
    ensures Emitted(Ground, w[from..to]) == []
  {
    if Emitted(Ground, w[from..to]) != [] {
      var i := EmissionIsMatch(w, from, to);
    }
  }

  /** Across the first match, the automaton emits just that match and is back in the ground state. */
  lemma FirstMatchIsEmitted(w: string, from: nat)
    requires from <= |w| && Find(w, from) < |w|
    ensures var i := Find(w, from);
            var e := MatchEnd(w, i);
            && EndState(Ground, w[from..]) == EndState(Ground, w[e..])
            && Emitted(Ground, w[from..]) == [MatchAt(w[i..]).value] + Emitted(Ground, w[e..])
  {
    hide MatchAt, EndState, Emitted;
    var i := Find(w, from);
    var e := MatchEnd(w, i);
    var q := MatchAt(w[i..]).value;
    MatchHasGrammar(w[i..]);
    var skipped, s := w[from..i], EndState(Ground, w[from..i]);
    SkippedIsSilent(w, from, i);
    assert w[from..] == skipped + (Render(q) + w[e..]);
    RunConcat(Ground, skipped, Render(q) + w[e..]);
    RunConcat(s, Render(q), w[e..]);
    RenderEmits(s, q);
  }

  /** The global search finds exactly what the automaton emits, and they agree on the state behind the last match. */
  lemma {:induction false} SearchIsAutomaton(w: string, from: nat)
    requires from <= |w|
    ensures Matches(w, from) == Emitted(Ground, w[from..])
    ensures EndState(Ground, w[from..]) == EndState(Ground, w[LastEnd(w, from)..])
    decreases |w| - from
  {
    var i := Find(w, from);
    if i == |w| {
      SkippedIsSilent(w, from, i);
      assert w[from..] == w[from..i];
    } else {
      FirstMatchIsEmitted(w, from);
      SearchIsAutomaton(w, MatchEnd(w, i));
    }
  }
}
