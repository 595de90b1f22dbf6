/** What each kind of control sequence does to a tracker that reads it as text, whatever it read before. */
module TerminalInputModeSequences {
  import opened Options
  import opened Text
  import opened ControlSequences
  import opened TerminalInputMode
  import opened TerminalInputModeLaws

  // ---------------------------------------------------------------------------------------------
  // Parameter lists as they are written

  function Parameter(p: Option<nat>): string {
    if p.Some? then Decimal(p.value) else ""
  }

  /** Numbers, or nothing where one is left out, between semicolons. */
  function Listed(ps: seq<Option<nat>>): string
    requires ps != []
  {
    if |ps| == 1 then Parameter(ps[0]) else Parameter(ps[0]) + ";" + Listed(ps[1..])
  }

  function Parameters(ps: seq<Option<nat>>): seq<string> {
    seq(|ps|, i requires 0 <= i < |ps| => Parameter(ps[i]))
  }

  lemma {:induction false} ParameterIsDigits(p: Option<nat>)
    ensures AllDigits(Parameter(p)) && (Parameter(p) != "" <==> p.Some?)
    ensures p.Some? ==> DecimalValue(Parameter(p)) == p.value
    ensures forall c | c in Parameter(p) :: c != ';'
  {
    if p.Some? {
      DecimalRoundTrip(p.value);
    }
  }

  lemma {:induction false} ParametersCons(ps: seq<Option<nat>>)
    requires ps != []
    ensures Parameters(ps) == [Parameter(ps[0])] + Parameters(ps[1..])
  {
  }

  lemma {:induction false} ListedSplits(ps: seq<Option<nat>>)
    requires ps != []
    ensures AllParams(Listed(ps)) && Split(Listed(ps), {';'}) == Parameters(ps)
  {
    ParameterIsDigits(ps[0]);
    ParametersCons(ps);
    if |ps| == 1 {
      SplitWhole(Parameter(ps[0]), {';'});
      assert Parameters(ps[1..]) == [];
    } else {
      var rest := Listed(ps[1..]);
      assert Parameter(ps[0]) + [';'] + rest == Listed(ps);
      hide Split, Parameter, Listed, Parameters;
      ListedSplits(ps[1..]);
      SplitHead(Parameter(ps[0]), ';', rest, {';'});
    }
  }

  /** Reading a list gives back the numbers that were written. */
  lemma {:induction false} ListedReads(ps: seq<Option<nat>>)
    requires ps != []
    ensures AllParams(Listed(ps))
    ensures forall k: nat :: ParamAt(Listed(ps), k) == if k < |ps| then ps[k] else None
    ensures forall mode: nat :: HasMode(Listed(ps), mode) <==> Some(mode) in ps
  {
    ListedSplits(ps);
    var parts := Split(Listed(ps), {';'});
    hide Split, Listed, Parameter;
    forall k: nat ensures ParamAt(Listed(ps), k) == if k < |ps| then ps[k] else None {
      if k < |ps| {
        ParameterIsDigits(ps[k]);
      }
    }
    forall mode: nat ensures HasMode(Listed(ps), mode) <==> Some(mode) in ps {
      if HasMode(Listed(ps), mode) {
        var part :| part in parts && part != "" && AllDigits(part) && DecimalValue(part) == mode;
        var i :| 0 <= i < |parts| && parts[i] == part;
        ParameterIsDigits(ps[i]);
      }
      if Some(mode) in ps {
        var i :| 0 <= i < |ps| && ps[i] == Some(mode);
        ParameterIsDigits(ps[i]);
        assert parts[i] in parts;
      }
    }
  }

  // ---------------------------------------------------------------------------------------------
  // One sequence, read as text

  lemma {:induction false} FedAlone(t: Tracker, q: Sequence)
    requires ValidTracker(t) && WellFormed(q)
    ensures var o := Apply(t.modes, q);
            FeedChunk(t, Render(q)) == FeedResult(Tracker(o.modes, ""), o.changed, o.responses)
  {
    hide Apply, EndState, Emitted, Render, FeedChunk;
    FeedIsAutomaton(t, Render(q));
    RenderEmits(EndState(Ground, t.pending), q);
    ApplyAllStep(t.modes, q, []);
    ApplyAllNone(Apply(t.modes, q).modes);
    assert [q] + [] == [q];
  }

  /** What the text `ESC [ prefix params final` is. */
  function KittyText(prefix: string, ps: seq<Option<nat>>): string
    requires ps != []
  {
    [ESC] + "[" + prefix + Listed(ps) + "u"
  }

  lemma {:induction false} KittyTextRenders(c: char, ps: seq<Option<nat>>)
    requires ps != []
    ensures KittyText([c], ps) == Render(Kitty(Some(c), Listed(ps)))
    ensures KittyText("", ps) == Render(Kitty(None, Listed(ps)))
  {
    hide Listed;
    assert [ESC] + "[" + "" + Listed(ps) + "u" == [ESC, '['] + "" + Listed(ps) + ['u'];
    assert [ESC] + "[" + [c] + Listed(ps) + "u" == [ESC, '['] + [c] + Listed(ps) + ['u'];
  }

  function ModesText(ps: seq<Option<nat>>, final: char): string
    requires ps != []
  {
    [ESC] + "[?" + Listed(ps) + [final]
  }

  /** The mode is set or reset if it is among the parameters, else as before. */
  predicate Switched(ps: seq<Option<nat>>, final: char, mode: nat, before: bool, after: bool) {
    after == if Some(mode) in ps then final == 'h' else before
  }

  /** Each private mode follows its own number, `h` switches on and `l` off; nothing else changes or is answered. */
  lemma {:induction false} PrivateModesSwitch(t: Tracker, ps: seq<Option<nat>>, final: char)
    requires ValidTracker(t) && ps != [] && (final == 'h' || final == 'l')
    ensures var r := FeedChunk(t, ModesText(ps, final));
            var before, after := StateOf(t.modes), StateOf(r.tracker.modes);
            && Switched(ps, final, 9001, before.win32InputMode, after.win32InputMode)
            && Switched(ps, final, 1, Truthy(before.applicationCursorKeys), Truthy(after.applicationCursorKeys))
            && Switched(ps, final, 2004, Truthy(before.bracketedPaste), Truthy(after.bracketedPaste))
            && r.tracker.modes.flags == t.modes.flags && r.tracker.modes.stack == t.modes.stack
            && r.tracker.pending == "" && r.responses == []
            && (r.changed <==> !StatesEqual(after, before))
  {
    var q := PrivateMode(Listed(ps), final);
    assert ModesText(ps, final) == Render(q) by {
      hide Listed;
      assert [ESC] + "[?" + Listed(ps) + [final] == [ESC, '['] + ['?'] + Listed(ps) + [final];
    }
    ListedReads(ps);
    FedAlone(t, q);
    hide Listed, HasMode, FeedChunk, Render;
  }

  lemma {:induction false} TwoChunks(t: Tracker, a: string, b: string)
    ensures FeedChunks(t, [a, b]).tracker == FeedChunk(FeedChunk(t, a).tracker, b).tracker
  {
    PairOfChunks(t, a, b);
  }

  /** Bracketed paste switched on and off again leaves exactly what was there before iff it was off. */
  lemma {:induction false} PasteOnAndOff(t: Tracker)
    requires ValidTracker(t)
    ensures var on, off := [ESC] + "[?2004h", [ESC] + "[?2004l";
            && FeedChunk(t, on).tracker.modes == t.modes.(paste := true)
            && FeedChunks(t, [on, off]).tracker.modes == t.modes.(paste := false)
            && (FeedChunks(t, [on, off]).tracker.modes == t.modes <==> !t.modes.paste)
  {
    var ps := [Some(BRACKETED_PASTE_MODE)];
    assert Decimal(2004) == "2004" by {
      assert Decimal(2) == "2" && Decimal(20) == "20" && Decimal(200) == "200";
    }
    assert Listed(ps) == "2004";
    assert [ESC] + "[?2004h" == ModesText(ps, 'h') && [ESC] + "[?2004l" == ModesText(ps, 'l');
    hide FeedChunk, FeedChunks, ModesText, Listed;
    TwoChunks(t, ModesText(ps, 'h'), ModesText(ps, 'l'));
    PrivateModesSwitch(t, ps, 'h');
    var first := FeedChunk(t, ModesText(ps, 'h')).tracker;
    PrivateModesSwitch(first, ps, 'l');
  }

  /** A push saves the flags and sets the first parameter, or 1. */
  lemma {:induction false} PushSaves(t: Tracker, ps: seq<Option<nat>>)
    requires ValidTracker(t) && ps != []
    ensures var r := FeedChunk(t, KittyText(">", ps));
            var flags := if ps[0].Some? then ps[0].value else 1;
            && r.tracker.modes == t.modes.(flags := flags, stack := t.modes.stack + [t.modes.flags])
            && r.tracker.pending == "" && r.responses == [] && (r.changed <==> flags != t.modes.flags)
  {
    hide Listed, ParamAt, FeedChunk, Render, KittyText, HasMode;
    ListedReads(ps);
    KittyTextRenders('>', ps);
    FedAlone(t, Kitty(Some('>'), Listed(ps)));
  }

  /** A set replaces the flags by the first parameter, or 0, and clears them if the second one is 0. */
  lemma {:induction false} SetReplaces(t: Tracker, ps: seq<Option<nat>>)
    requires ValidTracker(t) && ps != []
    ensures var r := FeedChunk(t, KittyText("=", ps));
            var flags := if ps[0].None? || (|ps| > 1 && ps[1] == Some(0)) then 0 else ps[0].value;
            && r.tracker.modes == t.modes.(flags := flags)
            && r.tracker.pending == "" && r.responses == [] && (r.changed <==> flags != t.modes.flags)
  {
    hide Listed, ParamAt, FeedChunk, Render, KittyText, HasMode;
    ListedReads(ps);
    KittyTextRenders('=', ps);
    FedAlone(t, Kitty(Some('='), Listed(ps)));
  }

  /** A pop restores as many saved values as the first parameter says, at least one, and 0 once there is none. */
  lemma {:induction false} PopRestores(t: Tracker, ps: seq<Option<nat>>)
    requires ValidTracker(t) && ps != []
    ensures var r := FeedChunk(t, KittyText("<", ps));
            var n := if ps[0].None? || ps[0].value == 0 then 1 else ps[0].value;
            var m, m', depth := t.modes, r.tracker.modes, |t.modes.stack|;
            && (if n <= depth then m'.stack == m.stack[..depth - n] && m'.flags == m.stack[depth - n]
                else m'.stack == [] && m'.flags == 0)
            && m' == m.(flags := m'.flags, stack := m'.stack)
            && r.tracker.pending == "" && r.responses == [] && (r.changed <==> m'.flags != m.flags)
  {
    hide Listed, ParamAt, FeedChunk, Render, KittyText, HasMode;
    ListedReads(ps);
    KittyTextRenders('<', ps);
    FedAlone(t, Kitty(Some('<'), Listed(ps)));
  }

  lemma {:induction false} AnswerInFull(flags: nat)
    ensures flags < EXPONENT_NOTATION_LIMIT ==> QueryResponse(flags) == [ESC] + "[?" + Listed([Some(flags)]) + "u"
  {
    assert Listed([Some(flags)]) == Decimal(flags);
  }

  /** A query changes nothing and is answered by one text that denotes the flags, if they print with all digits. */
  lemma {:induction false} QueryAnswers(t: Tracker, ps: seq<Option<nat>>)
    requires ValidTracker(t) && ps != []
    ensures var r := FeedChunk(t, KittyText("?", ps));
            && r.tracker == Tracker(t.modes, "") && !r.changed
            && (t.modes.flags < EXPONENT_NOTATION_LIMIT ==>
                  r.responses == [[ESC] + "[?" + Listed([Some(t.modes.flags)]) + "u"])
  {
    AnswerInFull(t.modes.flags);
    hide Listed, ParamAt, FeedChunk, Render, KittyText, HasMode, QueryResponse;
    ListedReads(ps);
    KittyTextRenders('?', ps);
    FedAlone(t, Kitty(Some('?'), Listed(ps)));
  }

  /** Without a prefix nothing happens. */
  lemma {:induction false} BareIsIgnored(t: Tracker, ps: seq<Option<nat>>)
    requires ValidTracker(t) && ps != []
    ensures FeedChunk(t, KittyText("", ps)) == FeedResult(Tracker(t.modes, ""), false, [])
  {
    hide Listed, ParamAt, FeedChunk, Render, KittyText, HasMode;
    ListedReads(ps);
    KittyTextRenders('?', ps);
    FedAlone(t, Kitty(None, Listed(ps)));
  }

  // ---------------------------------------------------------------------------------------------
  // What is printed

  function Power10(n: nat): nat {
    if n == 0 then 1 else 10 * Power10(n - 1)
  }

  function Noughts(k: nat): string {
    seq(k, _ => '0')
  }

  lemma {:induction false} TrimmedZeros(s: string)
    ensures var r := TrimZeros(s);
            |r| <= |s| && s == r + Noughts(|s| - |r|) && (r != "" ==> r[|r| - 1] != '0')
  {
    if s != "" && s[|s| - 1] == '0' {
      TrimmedZeros(s[..|s| - 1]);
    }
  }

  lemma {:induction false} NoughtsMultiply(digits: string, k: nat)
    requires AllDigits(digits)
    ensures AllDigits(digits + Noughts(k)) && DecimalValue(digits + Noughts(k)) == DecimalValue(digits) * Power10(k)
  {
    if k == 0 {
      assert digits + Noughts(0) == digits;
    } else {
      NoughtsMultiply(digits, k - 1);
      var all := digits + Noughts(k);
      assert all[..|all| - 1] == digits + Noughts(k - 1) && all[|all| - 1] == '0';
      Shifted(DecimalValue(digits), Power10(k - 1));
    }
  }

  lemma {:induction false} Shifted(v: nat, p: nat)
    ensures 10 * (v * p) == v * (10 * p)
  {
  }

  /** The significant digits of a number, its zeros at the end left out but for the first digit. */
  lemma {:induction false} Significant(all: string) returns (digits: string)
    requires all != "" && AllDigits(all)
    ensures digits == all[..1] + TrimZeros(all[1..]) && |digits| <= |all| && AllDigits(digits)
    ensures |digits| > 1 ==> digits[|digits| - 1] != '0'
    ensures DecimalValue(all) == DecimalValue(digits) * Power10(|all| - |digits|)
  {
    TrimmedZeros(all[1..]);
    digits := all[..1] + TrimZeros(all[1..]);
    assert all == all[..1] + all[1..];
    assert all == digits + Noughts(|all| - |digits|);
    assert forall i | 0 <= i < |digits| :: digits[i] == all[i];
    NoughtsMultiply(digits, |all| - |digits|);
  }

  /** `text` is `digits` with a point behind the first, and an exponent. */
  predicate IsExponentText(text: string, digits: string, e: nat) {
    && digits != ""
    && text == [digits[0]] + (if |digits| == 1 then "" else "." + digits[1..]) + "e+" + Decimal(e)
  }

  /** A number in exponent notation: significant digits, no zero at their end, and an exponent that together denote it
      exactly. */
  lemma {:induction false} ExponentDenotes(n: nat)
    requires n >= EXPONENT_NOTATION_LIMIT
    ensures exists digits: string, e: nat ::
              && AllDigits(digits) && (|digits| > 1 ==> digits[|digits| - 1] != '0') && |digits| <= e + 1
              && IsExponentText(Printed(n), digits, e) && n == DecimalValue(digits) * Power10(e + 1 - |digits|)
  {
    var all := Decimal(n);
    DecimalRoundTrip(n);
    var digits := Significant(all);
    hide DecimalValue, Power10, TrimZeros;
    assert digits[1..] == TrimZeros(all[1..]) && [digits[0]] == all[..1];
    assert IsExponentText(Printed(n), digits, |all| - 1);
  }

  function Rendered(qs: seq<Sequence>): string {
    if qs == [] then "" else Render(qs[0]) + Rendered(qs[1..])
  }

  /** The preamble is the text of its sequences and nothing else. */
  lemma {:induction false} PreambleText(m: Modes)
    requires m.flags < EXPONENT_NOTATION_LIMIT
    ensures Preamble(m) == Rendered(PreambleSequences(m))
  {
    var q1, q2, q3 := PrivateMode("9001", 'h'), PrivateMode("1", 'h'), PrivateMode("2004", 'h');
    var s3 := (if m.paste then [q3] else []) + [];
    var s2 := (if m.cursorKeys then [q2] else []) + s3;
    FlagsAreRendered(m.flags, PrivateModeSequences(m));
    ModeIsRendered(m.win32, "9001", s2);
    ModeIsRendered(m.cursorKeys, "1", s3);
    ModeIsRendered(m.paste, "2004", []);
    TerminalInputModeLaws.Regroup(FlagsPart(m.flags), ModePart(m.win32, "9001"), ModePart(m.cursorKeys, "1"),
                                  ModePart(m.paste, "2004"));
    assert Rendered([]) == "";
    hide Rendered, FlagsPart, ModePart, FlagsSequences;
  }

  lemma {:induction false} FlagsAreRendered(flags: nat, rest: seq<Sequence>)
    requires flags < EXPONENT_NOTATION_LIMIT
    ensures Rendered(FlagsSequences(flags) + rest) == FlagsPart(flags) + Rendered(rest)
  {
    var f := Kitty(Some('='), Decimal(flags) + ";1");
    assert FlagsText(flags) == Render(f);
    hide FlagsText, Render;
    RenderedOptional(flags > 0, f, rest);
  }

  lemma {:induction false} ModeIsRendered(on: bool, mode: string, rest: seq<Sequence>)
    ensures Rendered((if on then [PrivateMode(mode, 'h')] else []) + rest) == ModePart(on, mode) + Rendered(rest)
  {
    assert ModeText(mode) == Render(PrivateMode(mode, 'h'));
    hide ModeText, Render;
    RenderedOptional(on, PrivateMode(mode, 'h'), rest);
  }

  lemma {:induction false} RenderedOptional(on: bool, q: Sequence, rest: seq<Sequence>)
    ensures Rendered((if on then [q] else []) + rest) == (if on then Render(q) else "") + Rendered(rest)
  {
    if on {
      assert ([q] + rest)[1..] == rest;
    } else {
      assert [] + rest == rest && "" + Rendered(rest) == Rendered(rest);
    }
  }
}
