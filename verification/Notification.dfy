/** The worker, its doorbell and the guest: notification suppression and held interrupts under any interleaving.

    The worker's accesses to guest memory are separate steps, so guest steps come between them. The device state is
    locked from `Capture` to `RequestInterrupt` and while re-arming, which keeps out the guest's MMIO writes only.
    Queue positions count without wrapping; the 16-bit cursors agree with them by `AvailableRing.SnapshotIsOldest`. */
module Notification {
  import opened Words
  import opened QueueEngine

  const MAX_DEVICE_STEPS: nat := 32

  /** Where the guest's transmit path is: a head is published, then the suppression flag read, then the bell rung. */
  datatype Transmit = Quiet | Published | MustNotify

  /** The guest masks interrupts, or enables them and then waits once it has seen the completions so far. */
  datatype Interrupts = Masked | Enabled | Waiting(tx: nat, rx: nat)

  datatype Phase =
    Start | Suppressed | Captured | TxPublished | TxAnswered | RxPublished | Answered | Decided
    | Rearming | Rearmed | Napping | Sleeping | Stopped

  /** What a turn carries from step to step: heads captured, whether more are waiting, transmit completions that want an
      interrupt, receive completions (those that want one, once their flag is read), and whether anything moved. */
  datatype Turn = Turn(heads: nat, more: bool, requested: nat, received: nat, progressed: bool)

  /** `owed` and `owedRx` count completions that were published while the interrupt flag read clear and have not been
      signalled; `raised` says an interrupt came since the guest last enabled them. */
  datatype State = State(
    ready: bool, published: nat, used: nat, usedRx: nat, noNotify: bool, transmit: Transmit, interrupts: Interrupts,
    pending: bool, doorbell: bool, held: nat, phase: Phase, turn: Turn,
    owed: nat, owedRx: nat, raised: bool)

  const NO_TURN: Turn := Turn(0, false, 0, 0, false)

  predicate IsNew(s: State) {
    s == State(false, 0, 0, 0, false, Quiet, Masked, false, false, 0, Start, NO_TURN, 0, 0, false)
  }

  datatype Step =
    | GuestPublish | GuestCheck | GuestNotify
    | GuestMask | GuestEnable | GuestWait
    | GuestReset | GuestSetup
    | OtherWork
    | Suppress(ok: bool)
    | Capture(ok: bool)
    | PublishTx(ok: bool)
    | ReadTxFlag(ok: bool)
    | PublishRx(count: nat, ok: bool)
    | ReadRxFlag(ok: bool)
    | RequestInterrupt(hasPayload: bool, rxMoved: bool, serviced: bool)
    | Continue
    | ClearFlag(writeOk: bool, readOk: bool)
    | Recheck(ok: bool)
    | Wait | Wake | Timer

  predicate Locked(phase: Phase) {
    phase.Captured? || phase.TxPublished? || phase.TxAnswered? || phase.RxPublished? || phase.Answered? || phase.Rearming?
  }

  predicate CanStep(s: State, step: Step) {
    match step
    case GuestPublish => s.ready && !s.transmit.MustNotify?
    case GuestCheck => s.transmit.Published?
    case GuestNotify => s.transmit.MustNotify? && !Locked(s.phase)
    case GuestMask => true
    case GuestEnable => true
    case GuestWait => s.interrupts.Enabled?
    case GuestReset => s.transmit.Quiet? && !Locked(s.phase)
    case GuestSetup => !s.ready && !Locked(s.phase)
    case OtherWork => true
    case Suppress(ok) => s.phase.Start?
    case Capture(ok) => s.phase.Suppressed?
    case PublishTx(ok) => s.phase.Captured?
    case ReadTxFlag(ok) => s.phase.TxPublished?
    case PublishRx(count, ok) => s.phase.TxAnswered?
    case ReadRxFlag(ok) => s.phase.RxPublished?
    case RequestInterrupt(hasPayload, rxMoved, serviced) => s.phase.Answered?
    case Continue => s.phase.Decided? && s.turn.progressed
    case ClearFlag(writeOk, readOk) => s.phase.Decided? && !s.turn.progressed
    case Recheck(ok) => s.phase.Rearming?
    case Wait => s.phase.Rearmed?
    case Wake => (s.phase.Sleeping? || s.phase.Napping?) && s.doorbell
    case Timer => s.phase.Napping?
  }

  function Signal(s: State): State {
    s.(held := 0, owed := 0, owedRx := 0, raised := true)
  }

  /** The flag counts as clear when it cannot be read. */
  predicate Wanted(s: State, ok: bool) {
    !ok || !s.interrupts.Masked?
  }

  function Outstanding(s: State): nat {
    if s.used <= s.published then s.published - s.used else 0
  }

  function SuppressNotifications(s: State, ok: bool): State {
    s.(phase := Suppressed, noNotify := s.noNotify || (s.ready && ok), pending := s.pending || (s.ready && ok))
  }

  function CaptureHeads(s: State, ok: bool): State {
    var count := if s.pending && s.ready then Outstanding(s) else 0;
    if ok then s.(phase := Captured, turn := Turn(Min(count, MAX_DEVICE_STEPS), count > MAX_DEVICE_STEPS, 0, 0, false))
    else s.(phase := Stopped)
  }

  function PublishTransmitted(s: State, ok: bool): State {
    var t := s.(pending := s.turn.more);
    if s.turn.heads == 0 then t.(phase := TxAnswered)
    else if ok then t.(phase := TxPublished, used := s.used + s.turn.heads)
    else t.(phase := Stopped)
  }

  function AnswerTransmitted(s: State, ok: bool): State {
    var n := if Wanted(s, ok) then s.turn.heads else 0;
    s.(phase := TxAnswered, turn := s.turn.(requested := n), owed := s.owed + n)
  }

  function PublishReceived(s: State, count: nat, ok: bool): State {
    if count == 0 then s.(phase := Answered)
    else if ok then s.(phase := RxPublished, turn := s.turn.(received := count), usedRx := s.usedRx + count)
    else s.(phase := Stopped)
  }

  function AnswerReceived(s: State, ok: bool): State {
    var n := if Wanted(s, ok) then s.turn.received else 0;
    s.(phase := Answered, turn := s.turn.(received := n), owedRx := s.owedRx + n)
  }

  function EndTurn(s: State, hasPayload: bool, moved: bool): State {
    var held := s.held + s.turn.requested;
    var t := if s.turn.received > 0 || hasPayload || held >= MAX_HELD_TX_COMPLETIONS then Signal(s) else s.(held := held);
    t.(phase := Decided, turn := NO_TURN.(progressed := s.turn.heads > 0 || moved))
  }

  function ClearSuppression(s: State, writeOk: bool, readOk: bool): State {
    if !s.ready then s.(pending := false, phase := Rearmed)
    else if writeOk then s.(noNotify := false, phase := Rearming)
    else if readOk && s.noNotify then s.(phase := Stopped)
    else s.(phase := Rearming)
  }

  function RecheckAvailable(s: State, ok: bool): State {
    if !ok then s.(phase := Stopped)
    else if s.published != s.used then s.(pending := true, phase := Start)
    else s.(pending := false, phase := Rearmed)
  }

  function Next(s: State, step: Step): State
    requires CanStep(s, step)
  {
    match step
    case GuestPublish => s.(published := s.published + 1, transmit := Published)
    case GuestCheck => s.(transmit := if s.noNotify then Quiet else MustNotify)
    case GuestNotify => s.(transmit := Quiet, pending := true, doorbell := true)
    case GuestMask => s.(interrupts := Masked)
    case GuestEnable => s.(interrupts := Enabled, raised := false)
    case GuestWait => s.(interrupts := Waiting(s.used, s.usedRx))
    case GuestReset =>
      s.(ready := false, published := 0, used := 0, usedRx := 0, interrupts := Masked,
         pending := false, doorbell := true, held := 0, owed := 0, owedRx := 0)
    case GuestSetup => s.(ready := true, noNotify := false)
    case OtherWork => s.(doorbell := true)
    case Suppress(ok) => SuppressNotifications(s, ok)
    case Capture(ok) => CaptureHeads(s, ok)
    case PublishTx(ok) => PublishTransmitted(s, ok)
    case ReadTxFlag(ok) => AnswerTransmitted(s, ok)
    case PublishRx(count, ok) => PublishReceived(s, count, ok)
    case ReadRxFlag(ok) => AnswerReceived(s, ok)
    case RequestInterrupt(hasPayload, rxMoved, serviced) => EndTurn(s, hasPayload, rxMoved || serviced)
    case Continue => s.(phase := Start)
    case ClearFlag(writeOk, readOk) => ClearSuppression(s, writeOk, readOk)
    case Recheck(ok) => RecheckAvailable(s, ok)
    case Wait => s.(phase := if s.held == 0 then Sleeping else Napping)
    case Wake => s.(doorbell := false, phase := Start)
    case Timer => (if s.held != 0 then Signal(s) else s).(phase := Start)
  }

  predicate Reaches(s: State, steps: seq<Step>, after: State)
    decreases |steps|
  {
    if steps == [] then after == s
    else CanStep(s, steps[0]) && Reaches(Next(s, steps[0]), steps[1..], after)
  }

  // ----- The invariant

  predicate Idling(phase: Phase) {
    phase.Rearmed? || phase.Napping? || phase.Sleeping?
  }

  predicate PositionsOk(s: State) {
    && s.used <= s.published
    && (!s.ready ==> s.published == 0 && s.transmit.Quiet?)
    && (s.phase.Captured? ==> s.used + s.turn.heads <= s.published && s.turn.requested == 0)
    && (s.phase.TxPublished? ==> s.turn.heads > 0 && s.turn.requested == 0)
    && (s.phase.RxPublished? ==> s.turn.received > 0)
    && (s.phase.Captured? || s.phase.TxPublished? || s.phase.TxAnswered? ==> s.turn.received == 0)
    && (!s.phase.Stopped? && (!Locked(s.phase) || s.phase.Rearming?) ==> s.turn.requested == 0)
  }

  /** The guest's transmit notifications are suppressed: it will not ring. */
  predicate Suppressing(s: State) {
    s.ready && s.noNotify
  }

  /** While the worker idles and the guest will ring, every published head is completed, or the guest is still
      publishing, or it has rung. */
  predicate NoLostHead(s: State) {
    Idling(s.phase) && !Suppressing(s) ==> s.published == s.used || !s.transmit.Quiet? || s.doorbell
  }

  predicate InterruptsOwed(s: State) {
    && (!s.phase.Stopped? ==> s.owed == s.held + s.turn.requested && s.owedRx == if s.phase.Answered? then s.turn.received else 0)
    && (s.phase.Sleeping? ==> s.held == 0)
    && s.held < MAX_HELD_TX_COMPLETIONS
  }

  /** A guest that waits has seen every completion, unless an interrupt came or one is owed to it. */
  predicate NoLostWake(s: State) {
    s.interrupts.Waiting? ==>
      && (s.used == s.interrupts.tx || s.raised || s.owed > 0 || s.phase.TxPublished? || s.phase.Stopped?)
      && (s.usedRx == s.interrupts.rx || s.raised || s.owedRx > 0 || s.phase.RxPublished? || s.phase.Stopped?)
  }

  predicate StateOk(s: State) {
    PositionsOk(s) && NoLostHead(s) && InterruptsOwed(s) && NoLostWake(s)
  }

  lemma SuppressOk(s: State, ok: bool)
    requires StateOk(s) && s.phase.Start?
    ensures StateOk(SuppressNotifications(s, ok))
  {
  }

  lemma CaptureOk(s: State, ok: bool)
    requires StateOk(s) && s.phase.Suppressed?
    ensures StateOk(CaptureHeads(s, ok))
  {
  }

  lemma PublishTxOk(s: State, ok: bool)
    requires StateOk(s) && s.phase.Captured?
    ensures StateOk(PublishTransmitted(s, ok))
  {
  }

  lemma ReadTxFlagOk(s: State, ok: bool)
    requires StateOk(s) && s.phase.TxPublished?
    ensures StateOk(AnswerTransmitted(s, ok))
  {
  }

  lemma PublishRxOk(s: State, count: nat, ok: bool)
    requires StateOk(s) && s.phase.TxAnswered?
    ensures StateOk(PublishReceived(s, count, ok))
  {
  }

  lemma ReadRxFlagOk(s: State, ok: bool)
    requires StateOk(s) && s.phase.RxPublished?
    ensures StateOk(AnswerReceived(s, ok))
  {
  }

  lemma SignalledOk(s: State, turn: Turn)
    requires StateOk(s) && s.phase.Answered? && turn.requested == 0
    ensures StateOk(Signal(s).(phase := Decided, turn := turn))
  {
  }

  lemma HeldOk(s: State, turn: Turn)
    requires StateOk(s) && s.phase.Answered? && turn.requested == 0
    requires s.turn.received == 0 && s.held + s.turn.requested < MAX_HELD_TX_COMPLETIONS
    ensures StateOk(s.(held := s.held + s.turn.requested, phase := Decided, turn := turn))
  {
  }

  lemma EndTurnOk(s: State, hasPayload: bool, moved: bool)
    requires StateOk(s) && s.phase.Answered?
    ensures StateOk(EndTurn(s, hasPayload, moved))
  {
    hide StateOk;
    var turn := NO_TURN.(progressed := s.turn.heads > 0 || moved);
    if s.turn.received > 0 || hasPayload || s.held + s.turn.requested >= MAX_HELD_TX_COMPLETIONS {
      SignalledOk(s, turn);
    } else {
      HeldOk(s, turn);
    }
  }

  lemma ClearFlagOk(s: State, writeOk: bool, readOk: bool)
    requires StateOk(s) && s.phase.Decided?
    ensures StateOk(ClearSuppression(s, writeOk, readOk))
  {
  }

  lemma RecheckOk(s: State, ok: bool)
    requires StateOk(s) && s.phase.Rearming?
    ensures StateOk(RecheckAvailable(s, ok))
  {
  }

  lemma IdleOk(s: State)
    requires StateOk(s)
    ensures s.phase.Decided? ==> StateOk(s.(phase := Start))
    ensures s.phase.Rearmed? ==> StateOk(s.(phase := if s.held == 0 then Sleeping else Napping))
    ensures s.phase.Sleeping? || s.phase.Napping? ==> StateOk(s.(doorbell := false, phase := Start))
    ensures s.phase.Napping? ==> StateOk((if s.held != 0 then Signal(s) else s).(phase := Start))
  {
  }

  lemma GuestOk(s: State, step: Step)
    requires StateOk(s) && CanStep(s, step)
    requires step.GuestPublish? || step.GuestCheck? || step.GuestNotify? || step.GuestMask? || step.GuestEnable?
             || step.GuestWait? || step.GuestReset? || step.GuestSetup? || step.OtherWork?
    ensures StateOk(Next(s, step))
  {
  }

  lemma StepOk(s: State, step: Step)
    requires StateOk(s) && CanStep(s, step)
    ensures StateOk(Next(s, step))
  {
    hide StateOk, SuppressNotifications, CaptureHeads, PublishTransmitted, AnswerTransmitted, PublishReceived, AnswerReceived,
      EndTurn, ClearSuppression, RecheckAvailable;
    match step
    case Suppress(ok) => SuppressOk(s, ok);
    case Capture(ok) => CaptureOk(s, ok);
    case PublishTx(ok) => PublishTxOk(s, ok);
    case ReadTxFlag(ok) => ReadTxFlagOk(s, ok);
    case PublishRx(count, ok) => PublishRxOk(s, count, ok);
    case ReadRxFlag(ok) => ReadRxFlagOk(s, ok);
    case RequestInterrupt(hasPayload, rxMoved, serviced) => EndTurnOk(s, hasPayload, rxMoved || serviced);
    case ClearFlag(writeOk, readOk) => ClearFlagOk(s, writeOk, readOk);
    case Recheck(ok) => RecheckOk(s, ok);
    case Continue => IdleOk(s);
    case Wait => IdleOk(s);
    case Wake => IdleOk(s);
    case Timer => IdleOk(s);
    case _ => GuestOk(s, step);
  }

  lemma {:induction false} RunOk(s: State, steps: seq<Step>, after: State)
    requires StateOk(s) && Reaches(s, steps, after)
    ensures StateOk(after)
    decreases |steps|
  {
    hide StateOk, Next, CanStep;
    if steps != [] {
      StepOk(s, steps[0]);
      RunOk(Next(s, steps[0]), steps[1..], after);
    }
  }

  lemma NewOk(s: State)
    requires IsNew(s)
    ensures StateOk(s)
  {
  }

  /** In every interleaving, when the worker sleeps untimed with the doorbell clear: every head the guest has finished
      publishing is completed unless its bell is suppressed, every completion published while the interrupt flag read
      clear is signalled, and a waiting guest has seen all or was interrupted. */
  lemma NoLostNotification(new_: State, steps: seq<Step>, s: State)
    requires IsNew(new_) && Reaches(new_, steps, s) && s.phase.Sleeping? && !s.doorbell
    ensures !Suppressing(s) && s.transmit.Quiet? ==> s.used == s.published
    ensures s.owed == 0 && s.owedRx == 0
    ensures s.interrupts.Waiting? ==> s.raised || (s.used == s.interrupts.tx && s.usedRx == s.interrupts.rx)
  {
    hide Next, CanStep, Reaches, IsNew;
    NewOk(new_);
    RunOk(new_, steps, s);
  }

  /** A timed wait keeps heads just as safe, and completions held back for it are all that is owed. */
  lemma NoLostHeadWhileNapping(new_: State, steps: seq<Step>, s: State)
    requires IsNew(new_) && Reaches(new_, steps, s) && s.phase.Napping? && !s.doorbell
    ensures !Suppressing(s) && s.transmit.Quiet? ==> s.used == s.published
    ensures s.owed == s.held < MAX_HELD_TX_COMPLETIONS && s.owedRx == 0
  {
    hide Next, CanStep, Reaches, IsNew;
    NewOk(new_);
    RunOk(new_, steps, s);
  }

  // ----- When the worker idles with the bell suppressed

  /** Whether the latest re-arm of a ready queue could neither clear the set flag nor read it back; a reset or a new
      setup of the queue ends it. */
  predicate BlindAfter(s: State, steps: seq<Step>, blind: bool)
    decreases |steps|
  {
    if steps == [] || !CanStep(s, steps[0]) then blind
    else BlindAfter(Next(s, steps[0]), steps[1..], StillBlind(s, steps[0], blind))
  }

  predicate StillBlind(s: State, step: Step, blind: bool) {
    match step
    case ClearFlag(writeOk, readOk) => Suppressing(s) && !writeOk && !readOk
    case GuestReset => false
    case GuestSetup => false
    case _ => blind
  }

  /** The flag is set at or after a re-check exactly when the re-arm before it was blind. */
  predicate FlagExplained(s: State, blind: bool) {
    s.phase.Rearming? || Idling(s.phase) ==> (Suppressing(s) <==> blind && s.ready)
  }

  predicate InTurn(phase: Phase) {
    !phase.Rearming? && !Idling(phase)
  }

  lemma TransmitPhases(s: State, ok: bool)
    ensures InTurn(SuppressNotifications(s, ok).phase) && InTurn(CaptureHeads(s, ok).phase)
    ensures InTurn(PublishTransmitted(s, ok).phase) && InTurn(AnswerTransmitted(s, ok).phase)
  {
    hide Outstanding, Wanted;
  }

  lemma ReceivePhases(s: State, count: nat, ok: bool, hasPayload: bool, moved: bool)
    ensures InTurn(PublishReceived(s, count, ok).phase) && InTurn(AnswerReceived(s, ok).phase)
    ensures InTurn(EndTurn(s, hasPayload, moved).phase)
  {
    hide Wanted, Signal;
  }

  /** Before a re-arm nothing is claimed, and no step of a turn leaves it idle. */
  lemma TurnExplains(s: State, step: Step)
    requires CanStep(s, step)
    requires step.Suppress? || step.Capture? || step.PublishTx? || step.ReadTxFlag? || step.PublishRx? || step.ReadRxFlag? || step.RequestInterrupt?
    ensures InTurn(Next(s, step).phase)
  {
    hide SuppressNotifications, CaptureHeads, PublishTransmitted, AnswerTransmitted, PublishReceived, AnswerReceived, EndTurn, InTurn, CanStep;
    if step.RequestInterrupt? {
      ReceivePhases(s, 0, true, step.hasPayload, step.rxMoved || step.serviced);
    } else if step.PublishRx? {
      ReceivePhases(s, step.count, step.ok, true, true);
    } else if step.ReadRxFlag? {
      ReceivePhases(s, 0, step.ok, true, true);
    } else {
      TransmitPhases(s, step.ok);
    }
  }

  lemma IdleExplains(s: State, step: Step, blind: bool)
    requires FlagExplained(s, blind) && CanStep(s, step)
    requires step.Continue? || step.ClearFlag? || step.Recheck? || step.Wait? || step.Wake? || step.Timer?
    ensures FlagExplained(Next(s, step), StillBlind(s, step, blind))
  {
  }

  lemma GuestExplains(s: State, step: Step, blind: bool)
    requires FlagExplained(s, blind) && CanStep(s, step)
    requires IsGuest(step) || step.GuestReset? || step.GuestSetup? || step.OtherWork?
    ensures FlagExplained(Next(s, step), StillBlind(s, step, blind))
  {
  }

  lemma StepExplains(s: State, step: Step, blind: bool)
    requires FlagExplained(s, blind) && CanStep(s, step)
    ensures FlagExplained(Next(s, step), StillBlind(s, step, blind))
  {
    hide Next, CanStep;
    if IsGuest(step) || step.GuestReset? || step.GuestSetup? || step.OtherWork? {
      GuestExplains(s, step, blind);
    } else if step.Continue? || step.ClearFlag? || step.Recheck? || step.Wait? || step.Wake? || step.Timer? {
      IdleExplains(s, step, blind);
    } else {
      TurnExplains(s, step);
    }
  }

  lemma {:induction false} RunExplains(s: State, steps: seq<Step>, blind: bool, after: State)
    requires FlagExplained(s, blind) && Reaches(s, steps, after)
    ensures FlagExplained(after, BlindAfter(s, steps, blind))
    decreases |steps|
  {
    hide Next, CanStep, FlagExplained, StillBlind;
    if steps != [] {
      StepExplains(s, steps[0], blind);
      RunExplains(Next(s, steps[0]), steps[1..], StillBlind(s, steps[0], blind), after);
    }
  }

  /** In every run, an idle worker leaves a ready queue suppressed if and only if its last re-arm was blind. */
  lemma SuppressedIffBlind(new_: State, steps: seq<Step>, s: State)
    requires IsNew(new_) && Reaches(new_, steps, s) && Idling(s.phase) && s.ready
    ensures Suppressing(s) <==> BlindAfter(new_, steps, false)
  {
    hide Next, CanStep, Reaches, BlindAfter;
    RunExplains(new_, steps, false, s);
  }

  /** What the guest can do while the worker is not running. */
  predicate IsGuest(step: Step) {
    step.GuestPublish? || step.GuestCheck? || step.GuestNotify? || step.GuestMask? || step.GuestEnable? || step.GuestWait?
  }

  lemma {:induction false} GuestRunKeeps(s: State, steps: seq<Step>, after: State)
    requires Reaches(s, steps, after) && forall k :: 0 <= k < |steps| ==> IsGuest(steps[k])
    ensures after.phase == s.phase && after.ready == s.ready && after.noNotify == s.noNotify
    decreases |steps|
  {
    if steps != [] { GuestRunKeeps(Next(s, steps[0]), steps[1..], after); }
  }

  /** A head is published for good, but nothing wakes the worker. */
  predicate HeadLost(s: State) {
    Idling(s.phase) && !s.doorbell && s.transmit.Quiet? && s.used < s.published
  }

  ghost predicate CanLoseHead(s: State) {
    exists steps, after :: Reaches(s, steps, after) && (forall k :: 0 <= k < |steps| ==> IsGuest(steps[k])) && HeadLost(after)
  }

  lemma PublishUnnoticed(s: State)
    requires CanStep(s, GuestPublish) && s.noNotify && s.transmit.Quiet?
    ensures Reaches(s, [GuestPublish, GuestCheck], s.(published := s.published + 1))
  {
    var steps := [GuestPublish, GuestCheck];
    var published := s.(published := s.published + 1, transmit := Published);
    assert steps[1..] == [GuestCheck] && steps[1..][1..] == [];
    assert Reaches(published, steps[1..], s.(published := s.published + 1));
  }

  /** The exact condition: from a quiet idle state of a ready queue, the guest alone can publish a head that is lost if
      and only if its bell is suppressed. */
  lemma LosesHeadIffSuppressed(new_: State, run: seq<Step>, s: State)
    requires IsNew(new_) && Reaches(new_, run, s)
    requires Idling(s.phase) && s.ready && !s.doorbell && s.transmit.Quiet?
    ensures CanLoseHead(s) <==> Suppressing(s)
  {
    hide Next, CanStep, Reaches, IsNew, StateOk;
    NewOk(new_);
    RunOk(new_, run, s);
    if Suppressing(s) {
      var steps := [GuestPublish, GuestCheck];
      var after := s.(published := s.published + 1);
      assert CanStep(s, GuestPublish) by { Publishable(s); }
      PublishUnnoticed(s);
      assert HeadLost(after) by { UsedWithinPublished(s); }
      assert Reaches(s, steps, after) && forall k :: 0 <= k < |steps| ==> IsGuest(steps[k]);
    } else {
      forall steps, after | Reaches(s, steps, after) && (forall k :: 0 <= k < |steps| ==> IsGuest(steps[k]))
        ensures !HeadLost(after)
      {
        GuestRunKeeps(s, steps, after);
        RunOk(s, steps, after);
        NeverLost(after);
      }
    }
  }

  lemma Publishable(s: State)
    requires s.ready && s.transmit.Quiet?
    ensures CanStep(s, GuestPublish)
  {
  }

  lemma UsedWithinPublished(s: State)
    requires StateOk(s)
    ensures s.used <= s.published
  {
  }

  lemma NeverLost(s: State)
    requires StateOk(s) && !Suppressing(s)
    ensures !HeadLost(s)
  {
  }

  lemma {:induction false} RunJoins(s: State, a: seq<Step>, middle: State, b: seq<Step>, after: State)
    requires Reaches(s, a, middle) && Reaches(middle, b, after)
    ensures Reaches(s, a + b, after)
    decreases |a|
  {
    hide Next, CanStep;
    if a == [] {
      assert a + b == b;
    } else {
      assert (a + b)[0] == a[0] && (a + b)[1..] == a[1..] + b;
      RunJoins(Next(s, a[0]), a[1..], middle, b, after);
    }
  }

  lemma OneStep(s: State, step: Step)
    requires CanStep(s, step)
    ensures Reaches(s, [step], Next(s, step))
  {
    assert [step][1..] == [];
  }

  /** A turn that finds nothing to do. */
  lemma IdleTurn(s: State) returns (steps: seq<Step>)
    requires s.phase.Suppressed? && s.ready && s.published == s.used && s.held == 0
    ensures Reaches(s, steps, s.(pending := false, phase := Decided, turn := NO_TURN))
  {
    hide Reaches;
    var captured := s.(phase := Captured, turn := NO_TURN);
    OneStep(s, Capture(true));
    assert Next(s, Capture(true)) == captured;
    steps := [Capture(true)];
    var answered := captured.(pending := false, phase := TxAnswered);
    steps := Extend(s, steps, captured, PublishTx(true), answered);
    steps := Extend(s, steps, answered, PublishRx(0, true), answered.(phase := Answered));
    steps := Extend(s, steps, answered.(phase := Answered), RequestInterrupt(false, false, false), answered.(phase := Decided));
  }

  /** A re-arm that can neither clear the set flag nor read it back puts the worker to sleep. */
  lemma BlindRearm(s: State) returns (steps: seq<Step>)
    requires s.phase.Decided? && !s.turn.progressed && Suppressing(s) && s.published == s.used && s.held == 0
    ensures Reaches(s, steps, s.(pending := false, phase := Sleeping))
  {
    hide Reaches;
    var rearming := s.(phase := Rearming);
    OneStep(s, ClearFlag(false, false));
    assert Next(s, ClearFlag(false, false)) == rearming;
    steps := [ClearFlag(false, false)];
    var rearmed := s.(pending := false, phase := Rearmed);
    steps := Extend(s, steps, rearming, Recheck(true), rearmed);
    steps := Extend(s, steps, rearmed, Wait, rearmed.(phase := Sleeping));
  }

  /** Blind re-arms do happen: the first turn of a queue just set up can end with the worker asleep and the bell
      suppressed, from where a head can be lost. */
  lemma BlindRearmReachable(new_: State) returns (steps: seq<Step>, asleep: State)
    requires IsNew(new_)
    ensures Reaches(new_, steps, asleep) && asleep.phase.Sleeping? && Suppressing(asleep)
    ensures CanLoseHead(asleep)
  {
    hide Reaches, CanLoseHead, Suppressing;
    var ready := new_.(ready := true);
    var suppressed := ready.(phase := Suppressed, noNotify := true, pending := true);
    var decided := suppressed.(pending := false, phase := Decided);
    asleep := decided.(phase := Sleeping);
    OneStep(new_, GuestSetup);
    var setup := Extend(new_, [GuestSetup], ready, Suppress(true), suppressed);
    var turn := IdleTurn(suppressed);
    RunJoins(new_, setup, suppressed, turn, decided);
    assert Suppressing(decided) && Suppressing(asleep) by { IsSuppressing(decided); IsSuppressing(asleep); }
    var rearm := BlindRearm(decided);
    RunJoins(new_, setup + turn, decided, rearm, asleep);
    steps := setup + turn + rearm;
    LosesHeadIffSuppressed(new_, steps, asleep);
  }

  lemma IsSuppressing(s: State)
    requires s.ready && s.noNotify
    ensures Suppressing(s)
  {
  }

  lemma Extend(s: State, steps: seq<Step>, middle: State, step: Step, after: State) returns (more: seq<Step>)
    requires Reaches(s, steps, middle) && CanStep(middle, step) && after == Next(middle, step)
    ensures more == steps + [step] && Reaches(s, more, after)
  {
    more := steps + [step];
    OneStep(middle, step);
    RunJoins(s, steps, middle, [step], after);
  }
}
