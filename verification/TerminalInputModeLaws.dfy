/** What the tracker promises: chunk boundaries, the flag stack and the replay preamble. */
module TerminalInputModeLaws {
  import opened Options
  import opened Text
  import opened ControlSequences
  import opened TerminalInputMode

  // ---------------------------------------------------------------------------------------------
  // Feeding is running the automaton, with a bare ESC forgotten at the end of each chunk

  /** What the tracker's pending text can be: nothing, or one unfinished sequence. */
  predicate ValidTracker(t: Tracker) {
    t.pending == "" || IsIncomplete(t.pending)
  }

  function Resting(s: Scan): Scan {
    if s == Escape then Ground else s
  }

  lemma IncompleteIsOpening(s: string) returns (p: Option<char>, params: string)
    requires IsIncomplete(s)
    ensures s == Opening(p, params) && (p.Some? ==> IsPrefix(p.value)) && AllParams(params)
  {
    p := LeadingPrefix(s[2..]);
    params := s[2 + |PrefixText(p)|..];
    assert s == s[..2] + PrefixText(p) + params;
  }

  lemma OpeningIsIncomplete(p: Option<char>, params: string)
    requires (p.Some? ==> IsPrefix(p.value)) && AllParams(params)
    ensures IsIncomplete(Opening(p, params))
  {
    var s := Opening(p, params);
    assert s[2..] == PrefixText(p) + params;
    assert params != "" ==> IsParam(params[0]);
    assert LeadingPrefix(s[2..]) == p;
    assert s[2 + |PrefixText(p)|..] == params;
  }

  /** An unfinished sequence at the end of a text starts at the last opening: behind its first character it has no
      ESC. */
  lemma {:induction false} LastOpeningAt(w: string, i: nat)
    requires i <= |w| && IsIncomplete(w[i..])
    ensures LastOpening(w) == Some(i)
  {
    var p, params := IncompleteIsOpening(w[i..]);
    assert forall j | i <= j < |w| :: w[j] == w[i..][j - i];
    assert w[i] == ESC && w[i + 1] == '[';
    assert forall j | i < j < |w| :: w[j] != ESC;
  }

  /** The last-opening search keeps exactly the text the automaton still holds. */
  lemma PendingIsHeld(w: string)
    ensures PendingOf(w) == Held(Resting(EndState(Ground, w)))
  {
    var s := EndState(Ground, w);
    if PendingOf(w) != "" {
      var i := LastOpening(w).value;
      var p, params := IncompleteIsOpening(w[i..]);
      assert w == w[..i] + w[i..];
      RunConcat(Ground, w[..i], w[i..]);
      OpeningCollects(EndState(Ground, w[..i]), p, params);
    } else if s.Csi? {
      HeldIsSuffix(w);
      var i := |w| - |Held(s)|;
      OpeningIsIncomplete(s.prefix, s.params);
      LastOpeningAt(w, i);
      assert false;
    }
  }

  /** A tracker stands for the automaton state its pending text leads to. */
  lemma ValidTrackerState(t: Tracker)
    requires ValidTracker(t)
    ensures EndState(Ground, t.pending) != Escape && Emitted(Ground, t.pending) == []
    ensures Held(EndState(Ground, t.pending)) == t.pending
  {
    if t.pending != "" {
      var p, params := IncompleteIsOpening(t.pending);
      OpeningCollects(Ground, p, params);
    }
  }

  /** What one call of `feed` should come to: a run of the automaton over the new data. */
  function AutomatonFeed(t: Tracker, data: string): FeedResult {
    var s := EndState(Ground, t.pending);
    var o := ApplyAll(t.modes, Emitted(s, data));
    FeedResult(Tracker(o.modes, Held(Resting(EndState(s, data)))), o.changed, o.responses)
  }

  lemma HeldIsValid(w: string)
    ensures var h := Held(Resting(EndState(Ground, w))); h == "" || IsIncomplete(h)
  {
    var s := EndState(Ground, w);
    HeldIsSuffix(w);
    if s.Csi? {
      OpeningIsIncomplete(s.prefix, s.params);
    }
  }

  /** One call of `feed`, pending text and rescan included, is one run of the automaton over the new data alone. */
  lemma FeedIsAutomaton(t: Tracker, data: string)
    requires ValidTracker(t)
    ensures FeedChunk(t, data) == AutomatonFeed(t, data)
    ensures ValidTracker(FeedChunk(t, data).tracker)
  {
    hide ApplyAll, PendingOf, IsIncomplete, Matches, LastEnd;
    ValidTrackerState(t);
    var text := t.pending + data;
    RunConcat(Ground, t.pending, data);
    HeldIsValid(text);
    if data == "" {
      ApplyAllNone(t.modes);
    } else {
      assert text[0..] == text;
      SearchIsAutomaton(text, 0);
      assert Matches(text, 0) == Emitted(EndState(Ground, t.pending), data);
      PendingIsHeld(text[LastEnd(text, 0)..]);
    }
  }

  // ---------------------------------------------------------------------------------------------
  // Chunk boundaries

  predicate EndsInEscape(a: string) {
    a != "" && a[|a| - 1] == ESC
  }

  /** A cut that separates ESC from the bracket behind it. */
  predicate CutsOpening(a: string, b: string) {
    EndsInEscape(a) && b != "" && b[0] == '['
  }

  lemma EscapeStateMeansEscape(s: Scan, a: string)
    requires s != Escape
    ensures EndState(s, a) == Escape <==> EndsInEscape(a)
  {
    if a != "" {
      var u, c := a[..|a| - 1], a[|a| - 1];
      assert a == u + [c];
      RunConcat(s, u, [c]);
      assert [c][1..] == "";
    }
  }

  /** Two calls equal one call on the joined data, unless the cut separates ESC from its bracket. */
  lemma ChunkBoundary(t: Tracker, a: string, b: string)
    requires ValidTracker(t) && !CutsOpening(a, b)
    ensures FeedChunks(t, [a, b]) == FeedChunk(t, a + b)
  {
    hide FeedChunk, FeedChunks, ApplyAll;
    ValidTrackerState(t);
    var s := EndState(Ground, t.pending);
    var mid := EndState(s, a);
    FeedIsAutomaton(t, a);
    FeedIsAutomaton(t, a + b);
    RunConcat(s, a, b);
    EscapeStateMeansEscape(s, a);
    var t' := FeedChunk(t, a).tracker;
    FeedIsAutomaton(t', b);
    assert EndState(Ground, t'.pending) == Resting(mid) by {
      HeldIsSuffix(t.pending + a);
      RunConcat(Ground, t.pending, a);
      if mid.Csi? {
        OpeningCollects(Ground, mid.prefix, mid.params);
      }
    }
    assert Emitted(Resting(mid), b) == Emitted(mid, b);
    assert Resting(EndState(Resting(mid), b)) == Resting(EndState(mid, b));
    ApplyAllConcat(t.modes, Emitted(s, a), Emitted(mid, b));
    PairOfChunks(t, a, b);
  }

  lemma PairOfChunks(t: Tracker, a: string, b: string)
    ensures var x := FeedChunk(t, a);
            var y := FeedChunk(x.tracker, b);
            FeedChunks(t, [a, b]) == FeedResult(y.tracker, x.changed || y.changed, x.responses + y.responses)
  {
    hide FeedChunk;
    var t' := FeedChunk(t, a).tracker;
    var y := FeedChunk(t', b);
    assert [a, b][1..] == [b] && [b][1..] == [];
    assert FeedChunks(t', [b]) == FeedResult(y.tracker, y.changed, y.responses + []);
  }

  lemma EscapePush()
    ensures EndState(Escape, "[>1u") == Ground && Emitted(Escape, "[>1u") == [Kitty(Some('>'), "1")]
  {
    var push := Kitty(Some('>'), "1");
    RenderEmits(Ground, push);
    assert Render(push) == [ESC] + "[>1u";
    RunConcat(Ground, [ESC], "[>1u");
    assert [ESC][1..] == "";
  }

  lemma PushOne(m: Modes)
    ensures Apply(m, Kitty(Some('>'), "1")).modes == m.(flags := 1, stack := m.stack + [m.flags])
  {
    SplitWhole("1", {';'});
    assert "1"[..0] == "" && DecimalValue("1") == 10 * DecimalValue("") + 1;
  }

  /** After any chunk that ends in a bare ESC, the push `[>1u` in the next chunk is lost: fed in one piece it saves the
      flags on the stack, fed in two it leaves the stack alone. */
  lemma BareEscapeLosesSequence(t: Tracker, a: string)
    requires ValidTracker(t) && EndsInEscape(a)
    ensures var first := FeedChunk(t, a).tracker;
            var whole, cut := FeedChunk(t, a + "[>1u").tracker, FeedChunks(t, [a, "[>1u"]).tracker;
            && whole.modes == first.modes.(flags := 1, stack := first.modes.stack + [first.modes.flags])
            && cut.modes == first.modes
    ensures FeedChunks(t, [a, "[>1u"]) != FeedChunk(t, a + "[>1u")
  {
    hide FeedChunk, FeedChunks, ApplyAll, Apply, EndState, Emitted;
    var b := "[>1u";
    ValidTrackerState(t);
    var s := EndState(Ground, t.pending);
    FeedIsAutomaton(t, a);
    FeedIsAutomaton(t, a + b);
    RunConcat(s, a, b);
    EscapeStateMeansEscape(s, a);
    var t' := FeedChunk(t, a).tracker;
    assert t'.pending == "";
    ValidTrackerState(t');
    FeedIsAutomaton(t', b);
    GroundSkips(b);
    PairOfChunks(t, a, b);
    var push := Kitty(Some('>'), "1");
    EscapePush();
    ApplyAllConcat(t.modes, Emitted(s, a), [push]);
    ApplyAllStep(t'.modes, push, []);
    assert [push] + [] == [push];
    ApplyAllNone(t'.modes);
    ApplyAllNone(Apply(t'.modes, push).modes);
    PushOne(t'.modes);
  }

  /** Output may be cut behind `a` without any effect, whatever the tracker and whatever follows, iff `a` does not
      end in a bare ESC. */
  lemma SafeCut(a: string)
    ensures (forall t: Tracker, b: string | ValidTracker(t) :: FeedChunks(t, [a, b]) == FeedChunk(t, a + b))
            <==> !EndsInEscape(a)
  {
    hide FeedChunk, FeedChunks;
    if EndsInEscape(a) {
      var t, b := FRESH_TRACKER, "[>1u";
      BareEscapeLosesSequence(t, a);
      assert ValidTracker(t) && FeedChunks(t, [a, b]) != FeedChunk(t, a + b);
    } else {
      forall t: Tracker, b: string | ValidTracker(t) ensures FeedChunks(t, [a, b]) == FeedChunk(t, a + b) {
        ChunkBoundary(t, a, b);
      }
    }
  }

  function Joined(chunks: seq<string>): string {
    if chunks == [] then "" else chunks[0] + Joined(chunks[1..])
  }

  predicate CleanCuts(chunks: seq<string>) {
    forall i | 0 <= i < |chunks| :: !CutsOpening(chunks[i], Joined(chunks[i + 1..]))
  }

  /** Any list of chunks has the effect of its text in one piece. */
  lemma {:induction false} ChunkingDoesNotMatter(t: Tracker, chunks: seq<string>)
    requires ValidTracker(t) && CleanCuts(chunks)
    ensures FeedChunks(t, chunks) == FeedChunk(t, Joined(chunks))
    decreases |chunks|
  {
    if chunks != [] {
      var a, rest := chunks[0], chunks[1..];
      FeedIsAutomaton(t, a);
      assert CleanCuts(rest) by {
        forall i | 0 <= i < |rest| ensures !CutsOpening(rest[i], Joined(rest[i + 1..])) {
          assert rest[i + 1..] == chunks[i + 2..] && rest[i] == chunks[i + 1];
        }
      }
      ChunkingDoesNotMatter(FeedChunk(t, a).tracker, rest);
      ChunkBoundary(t, a, Joined(rest));
      PairOfChunks(t, a, Joined(rest));
    }
  }

  // ---------------------------------------------------------------------------------------------
  // The flag stack

  /** The stack depth `qs` ends with when it starts with `d` values of its own, or None if it pops deeper than that. */
  function Nesting(qs: seq<Sequence>, d: nat): Option<nat>
    decreases |qs|
  {
    if qs == [] then Some(d)
    else
      match qs[0]
      case Kitty(Some('>'), _) => Nesting(qs[1..], d + 1)
      case Kitty(Some('<'), params) =>
        if PopCount(params) <= d then Nesting(qs[1..], d - PopCount(params)) else None
      case _ => Nesting(qs[1..], d)
  }

  lemma ApplyStack(m: Modes, q: Sequence)
    ensures var m' := Apply(m, q).modes;
            match q
            case Kitty(Some('>'), _) => m'.stack == m.stack + [m.flags]
            case Kitty(Some('<'), params) => (m'.flags, m'.stack) == Popped(m.stack, PopCount(params))
            case _ => m'.stack == m.stack
  {
  }

  /** Values below the ones `qs` pushed itself are never touched. */
  lemma {:induction false} NestedKeepsStack(m: Modes, qs: seq<Sequence>, d: nat)
    requires d <= |m.stack| && Nesting(qs, d).Some?
    ensures var m' := ApplyAll(m, qs).modes;
            var base := |m.stack| - d;
            |m'.stack| == base + Nesting(qs, d).value && m'.stack[..base] == m.stack[..base]
    decreases |qs|
  {
    hide Apply, ApplyAll, PopCount;
    if qs == [] {
      ApplyAllNone(m);
    } else {
      var q := qs[0];
      var m1 := Apply(m, q).modes;
      ApplyStack(m, q);
      assert [q] + qs[1..] == qs;
      ApplyAllStep(m, q, qs[1..]);
      var base := |m.stack| - d;
      match q
      case Kitty(Some('>'), _) =>
        NestedKeepsStack(m1, qs[1..], d + 1);
      case Kitty(Some('<'), params) =>
        assert m1.stack[..base] == m.stack[..base];
        NestedKeepsStack(m1, qs[1..], d - PopCount(params));
      case _ =>
        NestedKeepsStack(m1, qs[1..], d);
    }
  }

  /** A push, a body that leaves `k` values of its own behind, and a pop of `k + 1` restore flags and stack. */
  lemma PushBodyPop(m: Modes, push: string, body: seq<Sequence>, pop: string)
    requires Nesting(body, 0).Some? && PopCount(pop) == Nesting(body, 0).value + 1
    ensures var m' := ApplyAll(m, [Kitty(Some('>'), push)] + (body + [Kitty(Some('<'), pop)])).modes;
            m'.flags == m.flags && m'.stack == m.stack
  {
    var pushed := Apply(m, Kitty(Some('>'), push)).modes;
    var last := Kitty(Some('<'), pop);
    ApplyStack(m, Kitty(Some('>'), push));
    ApplyAllStep(m, Kitty(Some('>'), push), body + [last]);
    ApplyAllConcat(pushed, body, [last]);
    NestedKeepsStack(pushed, body, 0);
    var inner := ApplyAll(pushed, body).modes;
    ApplyAllStep(inner, last, []);
    ApplyStack(inner, last);
    assert inner.stack[..|pushed.stack|] == pushed.stack == m.stack + [m.flags];
    assert inner.stack[..|m.stack|] == inner.stack[..|pushed.stack|][..|m.stack|] == m.stack;
  }

  /** The same for terminal output: text around a program that cleans up after itself leaves flags and stack as
      they were. */
  lemma PushBodyPopText(t: Tracker, push: string, body: string, pop: string)
    requires ValidTracker(t) && AllParams(push) && AllParams(pop)
    requires var depth := Nesting(Matches(body, 0), 0); depth.Some? && PopCount(pop) == depth.value + 1
    ensures var open, close := Kitty(Some('>'), push), Kitty(Some('<'), pop);
            var m := FeedChunk(t, Render(open) + (body + Render(close))).tracker.modes;
            m.flags == t.modes.flags && m.stack == t.modes.stack
  {
    var open, close := Kitty(Some('>'), push), Kitty(Some('<'), pop);
    var s := EndState(Ground, t.pending);
    FeedIsAutomaton(t, Render(open) + (body + Render(close)));
    RunConcat(s, Render(open), body + Render(close));
    RenderEmits(s, open);
    RunConcat(Ground, body, Render(close));
    RenderEmits(EndState(Ground, body), close);
    SearchIsAutomaton(body, 0);
    assert body[0..] == body;
    PushBodyPop(t.modes, push, Matches(body, 0), pop);
  }

  // ---------------------------------------------------------------------------------------------
  // The preamble

  lemma ModeParams()
    ensures forall mode: nat :: HasMode("9001", mode) <==> mode == WIN32_INPUT_MODE
    ensures forall mode: nat :: HasMode("1", mode) <==> mode == APPLICATION_CURSOR_KEYS_MODE
    ensures forall mode: nat :: HasMode("2004", mode) <==> mode == BRACKETED_PASTE_MODE
  {
    SingleMode("9001");
    SingleMode("1");
    SingleMode("2004");
    FourDigits('9', '0', '0', '1');
    FourDigits('2', '0', '0', '4');
    assert "1"[..0] == "";
  }

  lemma FourDigits(a: char, b: char, c: char, d: char)
    requires IsDigit(a) && IsDigit(b) && IsDigit(c) && IsDigit(d)
    ensures DecimalValue([a, b, c, d])
            == 1000 * DigitValue(a) + 100 * DigitValue(b) + 10 * DigitValue(c) + DigitValue(d)
  {
    assert [a, b, c, d][..3] == [a, b, c] && [a, b, c][..2] == [a, b] && [a, b][..1] == [a] && [a][..0] == [];
    assert DecimalValue([a]) == DigitValue(a);
    assert DecimalValue([a, b]) == 10 * DecimalValue([a]) + DigitValue(b);
    assert DecimalValue([a, b, c]) == 10 * DecimalValue([a, b]) + DigitValue(c);
  }

  lemma SingleMode(s: string)
    requires s != "" && AllDigits(s)
    ensures forall mode: nat :: HasMode(s, mode) <==> mode == DecimalValue(s)
  {
    SplitWhole(s, {';'});
    assert s in Split(s, {';'});
  }

  /** A mode part emits at most one sequence and leaves the ground state. */
  lemma ModePartRuns(on: bool, params: string, rest: string)
    requires AllParams(params)
    ensures EndState(Ground, ModePart(on, params) + rest) == EndState(Ground, rest)
    ensures Emitted(Ground, ModePart(on, params) + rest)
            == (if on then [PrivateMode(params, 'h')] else []) + Emitted(Ground, rest)
  {
    if on {
      var q := PrivateMode(params, 'h');
      assert ModeText(params) == Render(q);
      RenderEmits(Ground, q);
      RunConcat(Ground, Render(q), rest);
    } else {
      assert ModePart(on, params) + rest == rest;
    }
  }

  lemma FlagsParam(n: nat)
    ensures ParamAt(Decimal(n) + ";1", 0) == Some(n) && ParamAt(Decimal(n) + ";1", 1) == Some(1)
  {
    var d := Decimal(n);
    assert d + ";1" == d + [';'] + "1";
    SplitHead(d, ';', "1", {';'});
    SplitWhole("1", {';'});
    DecimalRoundTrip(n);
    assert "1"[..0] == "";
  }

  function FlagsSequences(n: nat): seq<Sequence> {
    if 0 < n < EXPONENT_NOTATION_LIMIT then [Kitty(Some('='), Decimal(n) + ";1")] else []
  }

  /** The flags part printed with all its digits sets the flags; printed with an exponent it is not a sequence at
      all. */
  lemma FlagsPartRuns(n: nat)
    ensures EndState(Ground, FlagsPart(n)) == Ground
    ensures Emitted(Ground, FlagsPart(n)) == FlagsSequences(n)
  {
    if 0 < n < EXPONENT_NOTATION_LIMIT {
      var q := Kitty(Some('='), Decimal(n) + ";1");
      assert FlagsText(n) == Render(q);
      RenderEmits(Ground, q);
    } else if n > 0 {
      hide Printed;
      ExponentBreaks(n);
      BrokenParamIsSilent(Printed(n));
      assert FlagsText(n) == [ESC] + "[=" + (Printed(n) + ";1u");
    }
  }

  lemma BrokenParamIsSilent(x: string)
    requires |x| > 1 && IsDigit(x[0]) && (x[1] == '.' || x[1] == 'e') && ESC !in x
    ensures var text := [ESC] + "[=" + (x + ";1u"); EndState(Ground, text) == Ground && Emitted(Ground, text) == []
  {
    var head, more := Opening(Some('='), x[..1]), x[1..] + ";1u";
    assert [ESC] + "[=" + (x + ";1u") == head + more;
    OpeningCollects(Ground, Some('='), x[..1]);
    RunConcat(Ground, head, more);
    GroundSkips(more[1..]);
  }

  lemma ExponentBreaks(n: nat)
    requires n >= EXPONENT_NOTATION_LIMIT
    ensures var x := Printed(n);
            |x| > 1 && IsDigit(x[0]) && (x[1] == '.' || x[1] == 'e') && ESC !in x
  {
    var fraction := TrimZeros(Decimal(n)[1..]);
    assert ESC !in Decimal(n) && ESC !in Decimal(|Decimal(n)| - 1);
    assert forall i | 0 <= i < |fraction| :: fraction[i] == Decimal(n)[i + 1];
  }

  /** The sequences the preamble is made of. */
  function PreambleSequences(m: Modes): seq<Sequence> {
    FlagsSequences(m.flags) + PrivateModeSequences(m)
  }

  function PrivateModeSequences(m: Modes): seq<Sequence> {
    (if m.win32 then [PrivateMode("9001", 'h')] else [])
    + ((if m.cursorKeys then [PrivateMode("1", 'h')] else [])
       + ((if m.paste then [PrivateMode("2004", 'h')] else []) + []))
  }

  lemma PrivateModesRun(m: Modes) returns (text: string)
    ensures text == ModePart(m.win32, "9001") + (ModePart(m.cursorKeys, "1") + (ModePart(m.paste, "2004") + ""))
    ensures EndState(Ground, text) == Ground
    ensures Emitted(Ground, text) == PrivateModeSequences(m)
  {
    hide ModePart;
    var r3 := ModePart(m.paste, "2004") + "";
    var r2 := ModePart(m.cursorKeys, "1") + r3;
    text := ModePart(m.win32, "9001") + r2;
    ModePartRuns(m.paste, "2004", "");
    ModePartRuns(m.cursorKeys, "1", r3);
    ModePartRuns(m.win32, "9001", r2);
  }

  lemma Regroup(a: string, b: string, c: string, d: string)
    ensures a + b + c + d == a + (b + (c + (d + "")))
  {
  }

  lemma PreambleRuns(m: Modes)
    ensures EndState(Ground, Preamble(m)) == Ground
    ensures Emitted(Ground, Preamble(m)) == PreambleSequences(m)
  {
    hide FlagsPart, ModePart, FlagsSequences, PrivateModeSequences, EndState, Emitted;
    var rest := PrivateModesRun(m);
    Regroup(FlagsPart(m.flags), ModePart(m.win32, "9001"), ModePart(m.cursorKeys, "1"), ModePart(m.paste, "2004"));
    FlagsPartRuns(m.flags);
    RunConcat(Ground, FlagsPart(m.flags), rest);
  }

  lemma ApplyOptional(m: Modes, on: bool, q: Sequence, rest: seq<Sequence>)
    ensures ApplyAll(m, (if on then [q] else []) + rest)
            == if on then After(Apply(m, q).changed, Apply(m, q).responses, ApplyAll(Apply(m, q).modes, rest))
               else ApplyAll(m, rest)
  {
    if on {
      ApplyAllStep(m, q, rest);
    } else {
      assert [] + rest == rest;
    }
  }

  lemma PartsApply(m: Modes, flags: nat)
    ensures ApplyKitty(m, Some('='), Decimal(flags) + ";1").modes == m.(flags := flags)
    ensures ApplyPrivateMode(m, "9001", 'h').modes == m.(win32 := true)
    ensures ApplyPrivateMode(m, "1", 'h').modes == m.(cursorKeys := true)
    ensures ApplyPrivateMode(m, "2004", 'h').modes == m.(paste := true)
  {
    hide HasMode, ParamAt;
    ModeParams();
    FlagsParam(flags);
  }

  lemma PrivateModesApply(m: Modes, m0: Modes)
    requires !m0.win32 && !m0.cursorKeys && !m0.paste
    ensures var o := ApplyAll(m0, PrivateModeSequences(m));
            o.responses == [] && o.modes == m0.(win32 := m.win32, cursorKeys := m.cursorKeys, paste := m.paste)
  {
    hide ApplyAll, ApplyPrivateMode, HasMode;
    var q1, q2, q3 := PrivateMode("9001", 'h'), PrivateMode("1", 'h'), PrivateMode("2004", 'h');
    var s3 := (if m.paste then [q3] else []) + [];
    var s2 := (if m.cursorKeys then [q2] else []) + s3;
    var m1 := m0.(win32 := m.win32);
    var m2 := m1.(cursorKeys := m.cursorKeys);
    PartsApply(m0, 0);
    PartsApply(m1, 0);
    PartsApply(m2, 0);
    ApplyOptional(m0, m.win32, q1, s2);
    ApplyOptional(m1, m.cursorKeys, q2, s3);
    ApplyOptional(m2, m.paste, q3, []);
    ApplyAllNone(m2.(paste := m.paste));
    PrivateModeIsSilent(m0, q1);
    PrivateModeIsSilent(m1, q2);
    PrivateModeIsSilent(m2, q3);
  }

  lemma PrivateModeIsSilent(m: Modes, q: Sequence)
    requires q.PrivateMode?
    ensures Apply(m, q).responses == []
  {
  }

  lemma PreambleApplies(m: Modes)
    ensures var o := ApplyAll(INITIAL_MODES, PreambleSequences(m));
            && o.responses == []
            && o.modes == Modes(if m.flags < EXPONENT_NOTATION_LIMIT then m.flags else 0, [],
                                m.win32, m.cursorKeys, m.paste)
  {
    hide ApplyAll, PrivateModeSequences, ParamAt;
    var q := Kitty(Some('='), Decimal(m.flags) + ";1");
    PartsApply(INITIAL_MODES, m.flags);
    ApplyOptional(INITIAL_MODES, 0 < m.flags < EXPONENT_NOTATION_LIMIT, q, PrivateModeSequences(m));
    PrivateModesApply(m, INITIAL_MODES);
    PrivateModesApply(m, INITIAL_MODES.(flags := m.flags));
  }

  /** The preamble always replays silently and completely; it recreates the mode state iff the flags print without an
      exponent. The saved stack is never part of it. */
  lemma PreambleRoundTrip(m: Modes)
    ensures var r := FeedChunk(FRESH_TRACKER, Preamble(m));
            && r.responses == [] && r.tracker.pending == "" && r.tracker.modes.stack == []
            && (StatesEqual(StateOf(r.tracker.modes), StateOf(m)) <==> m.flags < EXPONENT_NOTATION_LIMIT)
  {
    hide FeedChunk, Preamble, PreambleSequences, ApplyAll, Emitted;
    FeedIsAutomaton(FRESH_TRACKER, Preamble(m));
    assert EndState(Ground, "") == Ground;
    PreambleRuns(m);
    PreambleApplies(m);
  }
}
