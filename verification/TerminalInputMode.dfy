/** The input-mode tracker: which keyboard and paste modes the program in a terminal has switched on. */
module TerminalInputMode {
  import opened Options
  import opened Text
  import opened ControlSequences

  const APPLICATION_CURSOR_KEYS_MODE := 1
  const WIN32_INPUT_MODE := 9001
  const BRACKETED_PASTE_MODE := 2004

  /** From this number on the runtime prints a number in exponent notation. */
  const EXPONENT_NOTATION_LIMIT := 1_000_000_000_000_000_000_000

  /** The exported state; two of its fields are optional. */
  datatype State = State(
    kittyKeyboardFlags: nat,
    win32InputMode: bool,
    applicationCursorKeys: Option<bool>,
    bracketedPaste: Option<bool>)

  function Truthy(b: Option<bool>): bool {
    b.Some? && b.value
  }

  predicate StatesEqual(left: State, right: State) {
    && left.kittyKeyboardFlags == right.kittyKeyboardFlags
    && left.win32InputMode == right.win32InputMode
    && Truthy(left.applicationCursorKeys) == Truthy(right.applicationCursorKeys)
    && Truthy(left.bracketedPaste) == Truthy(right.bracketedPaste)
  }

  datatype Modes = Modes(flags: nat, stack: seq<nat>, win32: bool, cursorKeys: bool, paste: bool)

  const INITIAL_MODES := Modes(0, [], false, false, false)

  /** The whole state of a tracker. */
  datatype Tracker = Tracker(modes: Modes, pending: string)

  const FRESH_TRACKER := Tracker(INITIAL_MODES, "")

  datatype Outcome = Outcome(modes: Modes, changed: bool, responses: seq<string>)

  // ---------------------------------------------------------------------------------------------
  // Parameters

  /** Parameter `k` as a number, unless it is absent, empty or not made of digits. */
  function ParamAt(params: string, k: nat): Option<nat> {
    var parts := Split(params, {';'});
    if k < |parts| && parts[k] != "" && AllDigits(parts[k]) then Some(DecimalValue(parts[k])) else None
  }

  predicate HasMode(params: string, mode: nat) {
    exists part | part in Split(params, {';'}) :: part != "" && AllDigits(part) && DecimalValue(part) == mode
  }

  function OrElse(n: Option<nat>, default: nat): nat {
    if n.Some? then n.value else default
  }

  function PopCount(params: string): (n: nat)
    ensures n >= 1
  {
    var n := OrElse(ParamAt(params, 0), 1);
    if n < 1 then 1 else n
  }

  /** `n` pops at once: the n-th saved value, or 0 and an empty stack once the stack has run out. */
  function Popped(stack: seq<nat>, n: nat): (nat, seq<nat>)
    requires n >= 1
  {
    if n <= |stack| then (stack[|stack| - n], stack[..|stack| - n]) else (0, [])
  }

  /** How the runtime prints a number. */
  function Printed(n: nat): string {
    if n < EXPONENT_NOTATION_LIMIT then Decimal(n) else ExponentNotation(n)
  }

  function ExponentNotation(n: nat): string {
    var digits := Decimal(n);
    var fraction := TrimZeros(digits[1..]);
    digits[..1] + (if fraction == "" then "" else "." + fraction) + "e+" + Decimal(|digits| - 1)
  }

  function TrimZeros(s: string): (r: string)
    ensures r <= s
  {
    if s != "" && s[|s| - 1] == '0' then TrimZeros(s[..|s| - 1]) else s
  }

  // ---------------------------------------------------------------------------------------------
  // What one sequence does, what a list of sequences does, and what a chunk of output does

  function ApplyKitty(m: Modes, leader: Option<char>, params: string): Outcome {
    match leader
    case Some('>') =>
      var flags := OrElse(ParamAt(params, 0), 1);
      Outcome(m.(flags := flags, stack := m.stack + [m.flags]), flags != m.flags, [])
    case Some('=') =>
      var flags := if OrElse(ParamAt(params, 1), 1) == 0 then 0 else OrElse(ParamAt(params, 0), 0);
      Outcome(m.(flags := flags), flags != m.flags, [])
    case Some('<') =>
      var (flags, stack) := Popped(m.stack, PopCount(params));
      Outcome(m.(flags := flags, stack := stack), flags != m.flags, [])
    case Some('?') => Outcome(m, false, [QueryResponse(m.flags)])
    case _ => Outcome(m, false, [])
  }

  function QueryResponse(flags: nat): string {
    [ESC] + "[?" + Printed(flags) + "u"
  }

  function ApplyPrivateMode(m: Modes, params: string, final: char): Outcome {
    var on := final == 'h';
    var m' := m.(win32 := if HasMode(params, WIN32_INPUT_MODE) then on else m.win32,
                 cursorKeys := if HasMode(params, APPLICATION_CURSOR_KEYS_MODE) then on else m.cursorKeys,
                 paste := if HasMode(params, BRACKETED_PASTE_MODE) then on else m.paste);
    Outcome(m', m' != m, [])
  }

  function Apply(m: Modes, q: Sequence): Outcome {
    match q
    case Kitty(leader, params) => ApplyKitty(m, leader, params)
    case PrivateMode(params, final) => ApplyPrivateMode(m, params, final)
  }

  function ApplyAll(m: Modes, qs: seq<Sequence>): Outcome
    decreases |qs|
  {
    if qs == [] then Outcome(m, false, [])
    else
      var first := Apply(m, qs[0]);
      After(first.changed, first.responses, ApplyAll(first.modes, qs[1..]))
  }

  /** An outcome with what earlier sequences already reported put in front. */
  function After(changed: bool, responses: seq<string>, o: Outcome): Outcome {
    Outcome(o.modes, changed || o.changed, responses + o.responses)
  }

  lemma ApplyAllNone(m: Modes)
    ensures ApplyAll(m, []) == Outcome(m, false, [])
  {
  }

  lemma ApplyAllStep(m: Modes, q: Sequence, rest: seq<Sequence>)
    ensures var o := Apply(m, q); ApplyAll(m, [q] + rest) == After(o.changed, o.responses, ApplyAll(o.modes, rest))
  {
    assert ([q] + rest)[1..] == rest;
  }

  lemma {:induction false} ApplyAllConcat(m: Modes, a: seq<Sequence>, b: seq<Sequence>)
    ensures var o := ApplyAll(m, a); ApplyAll(m, a + b) == After(o.changed, o.responses, ApplyAll(o.modes, b))
    decreases |a|
  {
    if a == [] {
      assert a + b == b;
    } else {
      var first := Apply(m, a[0]);
      assert a + b == [a[0]] + (a[1..] + b) && a == [a[0]] + a[1..];
      ApplyAllStep(m, a[0], a[1..] + b);
      ApplyAllStep(m, a[0], a[1..]);
      ApplyAllConcat(first.modes, a[1..], b);
      AfterAfter(first, ApplyAll(first.modes, a[1..]), ApplyAll(ApplyAll(m, a).modes, b));
    }
  }

  lemma AfterAfter(x: Outcome, y: Outcome, z: Outcome)
    ensures var xy := After(x.changed, x.responses, y);
            After(x.changed, x.responses, After(y.changed, y.responses, z)) == After(xy.changed, xy.responses, z)
  {
  }

  /** Whether `s` is a whole unfinished sequence: `ESC [`, an optional prefix, parameters, end of text. */
  predicate IsIncomplete(s: string) {
    && |s| >= 2 && s[0] == ESC && s[1] == '['
    && AllParams(s[2 + |PrefixText(LeadingPrefix(s[2..]))|..])
  }

  /** The last position of `ESC [` in `s`. */
  function LastOpening(s: string): (r: Option<nat>)
    ensures r.Some? ==> r.value + 2 <= |s| && s[r.value] == ESC && s[r.value + 1] == '['
    ensures forall i | (if r.Some? then r.value + 1 else 0) <= i < |s| - 1 :: !(s[i] == ESC && s[i + 1] == '[')
  {
    if |s| < 2 then None
    else if s[|s| - 2] == ESC && s[|s| - 1] == '[' then Some(|s| - 2)
    else LastOpening(s[..|s| - 1])
  }

  /** What is kept of the text behind the last match. */
  function PendingOf(tail: string): string {
    match LastOpening(tail)
    case Some(i) => if IsIncomplete(tail[i..]) then tail[i..] else ""
    case None => ""
  }

  datatype FeedResult = FeedResult(tracker: Tracker, changed: bool, responses: seq<string>)

  /** One call of `feed`: search the pending text and the new data, apply what is found, keep an unfinished tail. */
  function FeedChunk(t: Tracker, data: string): FeedResult {
    if data == "" then FeedResult(t, false, [])
    else
      var text := t.pending + data;
      var o := ApplyAll(t.modes, Matches(text, 0));
      FeedResult(Tracker(o.modes, PendingOf(text[LastEnd(text, 0)..])), o.changed, o.responses)
  }

  function FeedChunks(t: Tracker, chunks: seq<string>): FeedResult
    decreases |chunks|
  {
    if chunks == [] then FeedResult(t, false, [])
    else
      var first := FeedChunk(t, chunks[0]);
      var rest := FeedChunks(first.tracker, chunks[1..]);
      FeedResult(rest.tracker, first.changed || rest.changed, first.responses + rest.responses)
  }

  function FlagsText(flags: nat): string {
    [ESC] + "[=" + Printed(flags) + ";1u"
  }

  function ModeText(mode: string): string {
    [ESC] + "[?" + mode + "h"
  }

  function FlagsPart(flags: nat): string {
    if flags > 0 then FlagsText(flags) else ""
  }

  function ModePart(on: bool, mode: string): string {
    if on then ModeText(mode) else ""
  }

  function Preamble(m: Modes): string {
    FlagsPart(m.flags) + ModePart(m.win32, "9001") + ModePart(m.cursorKeys, "1") + ModePart(m.paste, "2004")
  }

  function StateOf(m: Modes): State {
    State(m.flags, m.win32, Some(m.cursorKeys), Some(m.paste))
  }

  // ---------------------------------------------------------------------------------------------
  // The class

  class TerminalInputModeTracker {
    var kittyKeyboardFlags: nat
    var win32InputMode: bool
    var applicationCursorKeys: bool
    var bracketedPaste: bool
    var kittyKeyboardStack: seq<nat>
    var pending: string

    ghost function CurrentModes(): Modes
      reads this
    {
      Modes(kittyKeyboardFlags, kittyKeyboardStack, win32InputMode, applicationCursorKeys, bracketedPaste)
    }

    ghost function View(): Tracker
      reads this
    {
      Tracker(CurrentModes(), pending)
    }

    constructor ()
      ensures View() == FRESH_TRACKER
    {
      kittyKeyboardFlags, kittyKeyboardStack := 0, [];
      win32InputMode, applicationCursorKeys, bracketedPaste := false, false, false;
      pending := "";
    }

    method Reset()
      modifies this
      ensures View() == FRESH_TRACKER
    {
      kittyKeyboardFlags, kittyKeyboardStack := 0, [];
      win32InputMode, applicationCursorKeys, bracketedPaste := false, false, false;
      pending := "";
    }

    method Feed(data: string) returns (changed: bool, responses: seq<string>)
      modifies this
      ensures FeedChunk(old(View()), data) == FeedResult(View(), changed, responses)
    {
      changed, responses := false, [];
      if data == "" {
        return;
      }
      var text := pending + data;
      pending := "";
      var consumedUntil := 0;
      ghost var start := CurrentModes();
      while true
        invariant consumedUntil <= |text|
        invariant ApplyAll(start, Matches(text, 0))
                  == After(changed, responses, ApplyAll(CurrentModes(), Matches(text, consumedUntil)))
        invariant LastEnd(text, 0) == LastEnd(text, consumedUntil)
        invariant pending == ""
        decreases |text| - consumedUntil
      {
        var at := Exec(text, consumedUntil);
        if at == |text| {
          break;
        }
        var q := MatchAt(text[at..]).value;
        consumedUntil := MatchEnd(text, at);
        ghost var before, rest := Outcome(CurrentModes(), changed, responses), Matches(text, consumedUntil);
        ApplyAllStep(before.modes, q, rest);
        var c, rs := ApplySequence(q);
        AfterAfter(before, Outcome(CurrentModes(), c, rs), ApplyAll(CurrentModes(), rest));
        changed, responses := c || changed, responses + rs;
      }
      KeepPending(text[consumedUntil..]);
    }

    method KeepPending(tail: string)
      requires pending == ""
      modifies this`pending
      ensures pending == PendingOf(tail)
    {
      var pendingStart := LastOpening(tail);
      if pendingStart.Some? && IsIncomplete(tail[pendingStart.value..]) {
        pending := tail[pendingStart.value..];
      }
    }

    /** The search of the global regular expression: it tries one position after the other. */
    static method Exec(text: string, lastIndex: nat) returns (at: nat)
      requires lastIndex <= |text|
      ensures at == Find(text, lastIndex)
    {
      at := lastIndex;
      while at < |text| && MatchAt(text[at..]).None?
        invariant lastIndex <= at <= |text|
        invariant Find(text, lastIndex) == Find(text, at)
      {
        at := at + 1;
      }
    }

    method ApplySequence(q: Sequence) returns (changed: bool, responses: seq<string>)
      modifies this
      ensures Apply(old(CurrentModes()), q) == Outcome(CurrentModes(), changed, responses)
      ensures pending == old(pending)
    {
      match q {
        case PrivateMode(params, final) =>
          responses := [];
          changed := ApplyPrivateModeSequence(params, final);
        case Kitty(leader, params) =>
          changed, responses := ApplyKittyKeyboardSequence(leader, params);
      }
    }

    method ApplyKittyKeyboardSequence(leader: Option<char>, params: string)
      returns (changed: bool, responses: seq<string>)
      modifies this`kittyKeyboardFlags, this`kittyKeyboardStack
      ensures ApplyKitty(old(CurrentModes()), leader, params) == Outcome(CurrentModes(), changed, responses)
    {
      var previousFlags := kittyKeyboardFlags;
      match leader {
        case Some('>') =>
          kittyKeyboardStack := kittyKeyboardStack + [kittyKeyboardFlags];
          kittyKeyboardFlags := OrElse(ParamAt(params, 0), 1);
        case Some('=') =>
          var mode := OrElse(ParamAt(params, 1), 1);
          kittyKeyboardFlags := if mode == 0 then 0 else OrElse(ParamAt(params, 0), 0);
        case Some('<') =>
          Pop(PopCount(params));
        case Some('?') =>
          return false, [QueryResponse(kittyKeyboardFlags)];
        case _ =>
          return false, [];
      }
      return kittyKeyboardFlags != previousFlags, [];
    }

    /** The pop loop: one saved value per round, 0 from an empty stack. */
    method Pop(count: nat)
      requires count >= 1
      modifies this`kittyKeyboardFlags, this`kittyKeyboardStack
      ensures (kittyKeyboardFlags, kittyKeyboardStack) == Popped(old(kittyKeyboardStack), count)
    {
      ghost var n := |kittyKeyboardStack|;
      for index := 0 to count
        invariant kittyKeyboardStack == if index <= n then old(kittyKeyboardStack)[..n - index] else []
        invariant index > 0 ==> kittyKeyboardFlags == if index <= n then old(kittyKeyboardStack)[n - index] else 0
      {
        if kittyKeyboardStack == [] {
          kittyKeyboardFlags := 0;
        } else {
          var top := |kittyKeyboardStack| - 1;
          kittyKeyboardFlags := kittyKeyboardStack[top];
          kittyKeyboardStack := kittyKeyboardStack[..top];
        }
      }
    }

    method ApplyPrivateModeSequence(params: string, final: char) returns (changed: bool)
      modifies this`win32InputMode, this`applicationCursorKeys, this`bracketedPaste
      ensures ApplyPrivateMode(old(CurrentModes()), params, final) == Outcome(CurrentModes(), changed, [])
    {
      var modes := ParsePrivateModeParams(params);
      changed := false;
      if WIN32_INPUT_MODE in modes {
        var previous := win32InputMode;
        win32InputMode := final == 'h';
        changed := win32InputMode != previous || changed;
      }
      if APPLICATION_CURSOR_KEYS_MODE in modes {
        var previous := applicationCursorKeys;
        applicationCursorKeys := final == 'h';
        changed := applicationCursorKeys != previous || changed;
      }
      if BRACKETED_PASTE_MODE in modes {
        var previous := bracketedPaste;
        bracketedPaste := final == 'h';
        changed := bracketedPaste != previous || changed;
      }
    }

    static method ParsePrivateModeParams(params: string) returns (modes: set<nat>)
      ensures forall mode: nat :: mode in modes <==> HasMode(params, mode)
    {
      modes := {};
      var parts := Split(params, {';'});
      for k := 0 to |parts|
        invariant forall mode: nat :: mode in modes <==>
                    exists part | part in parts[..k] :: part != "" && AllDigits(part) && DecimalValue(part) == mode
      {
        if parts[k] != "" && AllDigits(parts[k]) {
          modes := modes + {DecimalValue(parts[k])};
        }
        assert parts[..k + 1] == parts[..k] + [parts[k]];
      }
      assert parts[..|parts|] == parts;
    }

    function GetState(): (s: State)
      reads this
      ensures s == StateOf(CurrentModes())
    {
      State(kittyKeyboardFlags, win32InputMode, Some(applicationCursorKeys), Some(bracketedPaste))
    }

    method GetPreamble() returns (preamble: string)
      ensures preamble == Preamble(CurrentModes())
    {
      hide FlagsText, ModeText;
      preamble := "";
      if kittyKeyboardFlags > 0 {
        preamble := preamble + FlagsText(kittyKeyboardFlags);
      }
      assert preamble == FlagsPart(kittyKeyboardFlags);
      if win32InputMode {
        preamble := preamble + ModeText("9001");
      }
      assert preamble == FlagsPart(kittyKeyboardFlags) + ModePart(win32InputMode, "9001");
      if applicationCursorKeys {
        preamble := preamble + ModeText("1");
      }
      if bracketedPaste {
        preamble := preamble + ModeText("2004");
      }
    }
  }
}
