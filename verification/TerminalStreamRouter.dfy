/** The two-way index between terminals and stream slots, and the frames it routes. */
module TerminalStreamRouter {
  import opened Options

  datatype Index = Index(terminalSlots: map<string, nat>, slotTerminals: map<nat, string>)

  datatype Op = SetSlot(terminalId: string, slot: nat) | RemoveTerminal(terminalId: string) | ClearSlots

  const NO_SLOTS := Index(map[], map[])

  // ---------------------------------------------------------------------------------------------
  // One operation

  /** An empty terminal id counts as no terminal when a slot is taken over. */
  function Set(x: Index, t: string, s: nat): Index {
    var kept := if s in x.slotTerminals && x.slotTerminals[s] != "" && x.slotTerminals[s] != t
                then x.terminalSlots - {x.slotTerminals[s]} else x.terminalSlots;
    var freed := if t in kept && kept[t] != s then x.slotTerminals - {kept[t]} else x.slotTerminals;
    Index(kept[t := s], freed[s := t])
  }

  function Remove(x: Index, t: string): Index {
    if t !in x.terminalSlots then x
    else
      var s := x.terminalSlots[t];
      Index(x.terminalSlots - {t},
            if s in x.slotTerminals && x.slotTerminals[s] == t then x.slotTerminals - {s} else x.slotTerminals)
  }

  function Apply(x: Index, op: Op): Index {
    match op
    case SetSlot(t, s) => Set(x, t, s)
    case RemoveTerminal(t) => Remove(x, t)
    case ClearSlots => NO_SLOTS
  }

  function Run(x: Index, ops: seq<Op>): Index {
    if ops == [] then x else Apply(Run(x, ops[..|ops| - 1]), ops[|ops| - 1])
  }

  /** Which terminal a frame on slot `s` is for. */
  function Route(x: Index, s: nat): Option<string> {
    if s in x.slotTerminals && x.slotTerminals[s] != "" then Some(x.slotTerminals[s]) else None
  }

  // ---------------------------------------------------------------------------------------------
  // Mutual inverses

  ghost predicate SlotsKnown(x: Index) {
    forall s | s in x.slotTerminals :: x.slotTerminals[s] in x.terminalSlots && x.terminalSlots[x.slotTerminals[s]] == s
  }

  ghost predicate TerminalsKnown(x: Index) {
    forall t | t in x.terminalSlots :: x.terminalSlots[t] in x.slotTerminals && x.slotTerminals[x.terminalSlots[t]] == t
  }

  ghost predicate Inverse(x: Index) {
    SlotsKnown(x) && TerminalsKnown(x)
  }

  /** A named terminal takes over the slot of the terminal named by the empty string. */
  predicate DisplacesEmpty(x: Index, op: Op) {
    op.SetSlot? && op.terminalId != "" && op.slot in x.slotTerminals && x.slotTerminals[op.slot] == ""
  }

  /** The slots always lead to terminals that know them, whatever the ids. */
  lemma {:induction false} SlotsAlwaysKnown(ops: seq<Op>)
    ensures SlotsKnown(Run(NO_SLOTS, ops))
  {
    if ops != [] {
      SlotsAlwaysKnown(ops[..|ops| - 1]);
    }
  }

  /** One operation keeps the two maps inverse exactly if it does not displace the empty id. */
  lemma StepKeepsInverse(x: Index, op: Op)
    requires Inverse(x)
    ensures Inverse(Apply(x, op)) <==> !DisplacesEmpty(x, op)
  {
    if DisplacesEmpty(x, op) {
      assert x.terminalSlots[""] == op.slot;
      assert "" in Apply(x, op).terminalSlots && Apply(x, op).slotTerminals[op.slot] == op.terminalId;
    }
  }

  /** No operation of the history displaces the empty id. */
  predicate Orderly(ops: seq<Op>) {
    forall n | 0 <= n < |ops| :: !DisplacesEmpty(Run(NO_SLOTS, ops[..n]), ops[n])
  }

  predicate NamesAreNonEmpty(ops: seq<Op>) {
    forall n | 0 <= n < |ops| :: ops[n].SetSlot? ==> ops[n].terminalId != ""
  }

  lemma OrderlyPrefix(ops: seq<Op>)
    requires ops != [] && Orderly(ops)
    ensures Orderly(ops[..|ops| - 1])
    ensures !DisplacesEmpty(Run(NO_SLOTS, ops[..|ops| - 1]), ops[|ops| - 1])
  {
    var before := ops[..|ops| - 1];
    forall n | 0 <= n < |before| ensures !DisplacesEmpty(Run(NO_SLOTS, before[..n]), before[n]) {
      assert before[..n] == ops[..n];
    }
  }

  lemma {:induction false} OrderlyKeepsInverse(ops: seq<Op>)
    requires Orderly(ops)
    ensures Inverse(Run(NO_SLOTS, ops))
  {
    if ops != [] {
      OrderlyPrefix(ops);
      OrderlyKeepsInverse(ops[..|ops| - 1]);
      StepKeepsInverse(Run(NO_SLOTS, ops[..|ops| - 1]), ops[|ops| - 1]);
    }
  }

  /** The maps are mutual inverses all through a history iff no operation displaces the empty id. */
  lemma {:induction false} InverseIffOrderly(ops: seq<Op>)
    ensures Orderly(ops) <==> forall n | 0 <= n <= |ops| :: Inverse(Run(NO_SLOTS, ops[..n]))
  {
    if Orderly(ops) {
      forall n | 0 <= n <= |ops| ensures Inverse(Run(NO_SLOTS, ops[..n])) {
        assert forall k | 0 <= k < n :: ops[..n][..k] == ops[..k];
        OrderlyKeepsInverse(ops[..n]);
      }
    }
    if forall n | 0 <= n <= |ops| :: Inverse(Run(NO_SLOTS, ops[..n])) {
      forall n | 0 <= n < |ops| ensures !DisplacesEmpty(Run(NO_SLOTS, ops[..n]), ops[n]) {
        assert Inverse(Run(NO_SLOTS, ops[..n])) && Inverse(Run(NO_SLOTS, ops[..n + 1]));
        assert ops[..n + 1][..n] == ops[..n] && ops[..n + 1][n] == ops[n];
        StepKeepsInverse(Run(NO_SLOTS, ops[..n]), ops[n]);
      }
    }
  }

  lemma {:induction false} NoEmptySlot(ops: seq<Op>)
    requires NamesAreNonEmpty(ops)
    ensures forall s | s in Run(NO_SLOTS, ops).slotTerminals :: Run(NO_SLOTS, ops).slotTerminals[s] != ""
  {
    if ops != [] {
      NoEmptySlot(ops[..|ops| - 1]);
    }
  }

  /** With non-empty ids the maps are mutual inverses after every history. */
  lemma {:induction false} NonEmptyNamesAreOrderly(ops: seq<Op>)
    requires NamesAreNonEmpty(ops)
    ensures Orderly(ops) && Inverse(Run(NO_SLOTS, ops))
  {
    forall n | 0 <= n < |ops| ensures !DisplacesEmpty(Run(NO_SLOTS, ops[..n]), ops[n]) {
      NoEmptySlot(ops[..n]);
    }
    OrderlyKeepsInverse(ops);
  }

  // ---------------------------------------------------------------------------------------------
  // Routing, read off the history

  /** Rebinding of the terminal or of the slot, removal of the terminal, or a clear. */
  predicate Unbinds(op: Op, t: string, s: nat) {
    match op
    case SetSlot(t', s') => (t' == t) != (s' == s)
    case RemoveTerminal(t') => t' == t
    case ClearSlots => true
  }

  /** Some binding of `t` to `s` was not undone later. */
  ghost predicate Bound(ops: seq<Op>, t: string, s: nat) {
    exists i | 0 <= i < |ops| && ops[i] == SetSlot(t, s) :: forall j | i < j < |ops| :: !Unbinds(ops[j], t, s)
  }

  lemma BoundNext(ops: seq<Op>, t: string, s: nat)
    requires ops != []
    ensures var last := ops[|ops| - 1];
            Bound(ops, t, s) <==> last == SetSlot(t, s) || (Bound(ops[..|ops| - 1], t, s) && !Unbinds(last, t, s))
  {
    var before, last := ops[..|ops| - 1], ops[|ops| - 1];
    if Bound(ops, t, s) && last != SetSlot(t, s) {
      var i :| 0 <= i < |ops| && ops[i] == SetSlot(t, s) && forall j | i < j < |ops| :: !Unbinds(ops[j], t, s);
      assert before[i] == SetSlot(t, s);
      assert forall j | i < j < |before| :: before[j] == ops[j];
    }
    if Bound(before, t, s) && !Unbinds(last, t, s) {
      var i :| 0 <= i < |before| && before[i] == SetSlot(t, s) && forall j | i < j < |before| ::
          !Unbinds(before[j], t, s);
      assert ops[i] == SetSlot(t, s);
      assert forall j | i < j < |ops| - 1 :: ops[j] == before[j];
    }
  }

  /** What one operation does to one binding, while the maps are inverse. */
  lemma HoldsNext(x: Index, op: Op, t: string, s: nat)
    requires Inverse(x) && !DisplacesEmpty(x, op)
    ensures Holds(Apply(x, op), t, s) <==> op == SetSlot(t, s) || (Holds(x, t, s) && !Unbinds(op, t, s))
  {
  }

  predicate Holds(x: Index, t: string, s: nat) {
    s in x.slotTerminals && x.slotTerminals[s] == t
  }

  /** A slot holds a terminal exactly if the history bound the two and did not undo it. */
  lemma {:induction false} HistoryDecides(ops: seq<Op>, t: string, s: nat)
    requires Orderly(ops)
    ensures Holds(Run(NO_SLOTS, ops), t, s) <==> Bound(ops, t, s)
  {
    if ops != [] {
      OrderlyPrefix(ops);
      HistoryDecides(ops[..|ops| - 1], t, s);
      OrderlyKeepsInverse(ops[..|ops| - 1]);
      HoldsNext(Run(NO_SLOTS, ops[..|ops| - 1]), ops[|ops| - 1], t, s);
      BoundNext(ops, t, s);
    }
  }

  /** Frames of slot `s` go to `t`, and input for `t` goes out on `s`, as the history says. */
  lemma {:induction false} FramesFollowHistory(ops: seq<Op>, t: string, s: nat)
    requires Orderly(ops) && t != ""
    ensures Route(Run(NO_SLOTS, ops), s) == Some(t) <==> Bound(ops, t, s)
    ensures (t in Run(NO_SLOTS, ops).terminalSlots && Run(NO_SLOTS, ops).terminalSlots[t] == s) <==> Bound(ops, t, s)
  {
    HistoryDecides(ops, t, s);
    OrderlyKeepsInverse(ops);
  }

  /** With the empty id a named terminal can lose its frames although nothing unbound it. */
  lemma EmptyIdLosesFrames()
    ensures var ops := [SetSlot("", 1), SetSlot("a", 1), SetSlot("", 2)];
            && !Orderly(ops) && Bound(ops, "a", 1)
            && Route(Run(NO_SLOTS, ops), 1) == None && "a" in Run(NO_SLOTS, ops).terminalSlots
  {
    var ops := [SetSlot("", 1), SetSlot("a", 1), SetSlot("", 2)];
    assert ops[..2] == [SetSlot("", 1), SetSlot("a", 1)] && ops[..2][..1] == [SetSlot("", 1)]
           && ops[..1] == [SetSlot("", 1)];
    assert ops[..1][..0] == [];
    assert Run(NO_SLOTS, ops[..1]) == Set(NO_SLOTS, "", 1);
    assert Run(NO_SLOTS, ops[..2]) == Set(Set(NO_SLOTS, "", 1), "a", 1);
    assert Run(NO_SLOTS, ops) == Set(Set(Set(NO_SLOTS, "", 1), "a", 1), "", 2);
    assert DisplacesEmpty(Run(NO_SLOTS, ops[..1]), ops[1]);
    assert ops[1] == SetSlot("a", 1);
  }

  // ---------------------------------------------------------------------------------------------
  // The router

  datatype Payload = Payload(bytes: string)
  datatype Opcode = Output | Input | Resize | Snapshot | Restore
  datatype StreamFrame = StreamFrame(opcode: Opcode, slot: nat, payload: Payload)
  datatype StreamEvent =
    | OutputEvent(terminalId: string, data: Payload)
    | SnapshotEvent(terminalId: string, state: string)
    | RestoreEvent(terminalId: string, data: Payload)

  /** The event a frame causes, if its slot leads to a terminal, its opcode is for clients and it decodes. */
  function EventOf(x: Index, decode: Payload -> Option<string>, frame: StreamFrame): Option<StreamEvent> {
    match Route(x, frame.slot)
    case None => None
    case Some(t) =>
      match frame.opcode
      case Output => Some(OutputEvent(t, frame.payload))
      case Restore => Some(RestoreEvent(t, frame.payload))
      case Snapshot => (match decode(frame.payload) case None => None case Some(state) => Some(SnapshotEvent(t, state)))
      case _ => None
  }

  /** What reaches the router, in order. */
  datatype Arrival = Bind(op: Op) | Receive(frame: StreamFrame)

  function BindingsOf(history: seq<Arrival>): seq<Op> {
    if history == [] then []
    else BindingsOf(history[..|history| - 1])
         + match history[|history| - 1] case Bind(op) => [op] case Receive(_) => []
  }

  /** The events listeners have seen. */
  function Emitted(decode: Payload -> Option<string>, history: seq<Arrival>): seq<StreamEvent> {
    if history == [] then []
    else
      var before := history[..|history| - 1];
      Emitted(decode, before)
      + match history[|history| - 1]
        case Bind(_) => []
        case Receive(frame) =>
          match EventOf(Run(NO_SLOTS, BindingsOf(before)), decode, frame) case None => [] case Some(e) => [e]
  }

  /** Some terminal with a name is bound to the slot of the frame. */
  ghost predicate Reaches(history: seq<Arrival>, frame: StreamFrame, t: string) {
    t != "" && Bound(BindingsOf(history), t, frame.slot)
  }

  lemma {:induction false} EmittedNext(decode: Payload -> Option<string>, history: seq<Arrival>, arrival: Arrival)
    ensures Emitted(decode, history + [arrival])
            == Emitted(decode, history)
               + match arrival
                 case Bind(_) => []
                 case Receive(frame) =>
                   match EventOf(Run(NO_SLOTS, BindingsOf(history)), decode, frame) case None => [] case Some(e) => [e]
  {
    assert (history + [arrival])[..|history|] == history;
  }

  /** After any orderly history a frame shows as exactly one event, of the terminal its slot is bound to and of its own
      kind: output as output, a restore as a restore, a snapshot as the state it decodes to; and as none if no terminal
      is bound, it is no frame for clients or it does not decode. */
  lemma {:induction false} FramesBecomeEvents(
    decode: Payload -> Option<string>, history: seq<Arrival>, frame: StreamFrame, t: string, state: string)
    requires Orderly(BindingsOf(history))
    ensures var before, after := Emitted(decode, history), Emitted(decode, history + [Receive(frame)]);
            && (after == before + [OutputEvent(t, frame.payload)]
                <==> frame.opcode == Output && Reaches(history, frame, t))
            && (after == before + [RestoreEvent(t, frame.payload)]
                <==> frame.opcode == Restore && Reaches(history, frame, t))
            && (after == before + [SnapshotEvent(t, state)]
                <==> frame.opcode == Snapshot && decode(frame.payload) == Some(state) && Reaches(history, frame, t))
            && (after == before
                <==> || (forall u :: !Reaches(history, frame, u)) || frame.opcode in {Input, Resize}
                     || (frame.opcode == Snapshot && decode(frame.payload).None?))
            && (after == before || (|after| == |before| + 1 && after[..|before|] == before))
  {
    var ops := BindingsOf(history);
    var before, after := Emitted(decode, history), Emitted(decode, history + [Receive(frame)]);
    EmittedNext(decode, history, Receive(frame));
    forall u: string | u != ""
      ensures Route(Run(NO_SLOTS, ops), frame.slot) == Some(u) <==> Reaches(history, frame, u)
    {
      FramesFollowHistory(ops, u, frame.slot);
    }
    assert before + [] == before;
    assert |after| == |before| + 1 ==> after[|before|..] == [after[|before|]];
    hide Run, BindingsOf, Emitted, Reaches;
    var route := Route(Run(NO_SLOTS, ops), frame.slot);
    assert route.Some? ==> route.value != "";
    assert !Reaches(history, frame, "") by {
      EmptyReachesNothing(history, frame);
    }
    assert (forall u :: !Reaches(history, frame, u)) <==> route.None?;
  }

  lemma {:induction false} EmptyReachesNothing(history: seq<Arrival>, frame: StreamFrame)
    ensures !Reaches(history, frame, "")
  {
  }

  class TerminalStreamRouter {
    const decode: Payload -> Option<string>
    var terminalSlots: map<string, nat>
    var slotTerminals: map<nat, string>
    var emitted: seq<StreamEvent>

    ghost function View(): Index
      reads this
    {
      Index(terminalSlots, slotTerminals)
    }

    constructor (decode: Payload -> Option<string>)
      ensures View() == NO_SLOTS && emitted == []
    {
      this.decode := decode;
      terminalSlots, slotTerminals, emitted := map[], map[], [];
    }

    method SetSlot(terminalId: string, slot: nat)
      modifies this`terminalSlots, this`slotTerminals
      ensures View() == Set(old(View()), terminalId, slot)
      ensures SlotsKnown(old(View())) ==> SlotsKnown(View())
      ensures Inverse(old(View())) && terminalId != "" && slot !in old(slotTerminals) ==> Inverse(View())
    {
      if slot in slotTerminals {
        var existingTerminalId := slotTerminals[slot];
        if existingTerminalId != "" && existingTerminalId != terminalId {
          terminalSlots := terminalSlots - {existingTerminalId};
        }
      }
      if terminalId in terminalSlots {
        var existingSlot := terminalSlots[terminalId];
        if existingSlot != slot {
          slotTerminals := slotTerminals - {existingSlot};
        }
      }
      terminalSlots := terminalSlots[terminalId := slot];
      slotTerminals := slotTerminals[slot := terminalId];
    }

    method RemoveTerminal(terminalId: string)
      modifies this`terminalSlots, this`slotTerminals
      ensures View() == Remove(old(View()), terminalId)
      ensures Inverse(old(View())) ==> Inverse(View())
    {
      if terminalId !in terminalSlots {
        return;
      }
      var slot := terminalSlots[terminalId];
      terminalSlots := terminalSlots - {terminalId};
      if slot in slotTerminals && slotTerminals[slot] == terminalId {
        slotTerminals := slotTerminals - {slot};
      }
    }

    method ClearSlots()
      modifies this`terminalSlots, this`slotTerminals
      ensures View() == NO_SLOTS
    {
      terminalSlots := map[];
      slotTerminals := map[];
    }

    /** The slot input for a terminal goes out on. */
    method InputSlot(terminalId: string) returns (slot: Option<nat>)
      ensures slot.Some? <==> terminalId in terminalSlots
      ensures slot.Some? ==> slot.value == terminalSlots[terminalId]
      ensures Inverse(View()) && slot.Some? && terminalId != "" ==> Route(View(), slot.value) == Some(terminalId)
    {
      slot := if terminalId in terminalSlots then Some(terminalSlots[terminalId]) else None;
    }

    method HandleFrame(frame: StreamFrame)
      modifies this`emitted
      ensures emitted == old(emitted) + match EventOf(View(), decode, frame) case None => [] case Some(e) => [e]
    {
      if frame.slot !in slotTerminals || slotTerminals[frame.slot] == "" {
        return;
      }
      var terminalId := slotTerminals[frame.slot];
      if frame.opcode == Output {
        emitted := emitted + [OutputEvent(terminalId, frame.payload)];
        return;
      }
      if frame.opcode == Restore {
        emitted := emitted + [RestoreEvent(terminalId, frame.payload)];
        return;
      }
      if frame.opcode == Snapshot {
        var state := decode(frame.payload);
        if state.None? {
          return;
        }
        emitted := emitted + [SnapshotEvent(terminalId, state.value)];
      }
    }
  }
}
