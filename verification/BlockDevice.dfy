/** The block device: requests that wait for the disk, and resets that may come while they do.

    Code between two waits is one step. A request remembers the epoch it began in; a reset, a configuration or closing
    moves the epoch. `log` records every effect together with the epoch it was made for and the one then current. */
module BlockDevice {
  import opened Words
  import opened Modular
  import opened UsedRing
  import opened AvailableRing

  const STATUS_OK: nat := 0
  const STATUS_IOERR: nat := 1
  const STATUS_UNSUPP: nat := 2
  const MAX_QUEUE: nat := 256

  datatype Io = ReadDisk(total: nat) | WriteDisk | Flush | Discard

  datatype Effect =
    | DiskAccess(io: Io)
    | DiskAnswer(ok: bool, bytes: nat)
    | DataWrite(len: nat)
    | StatusWrite(status: nat)
    | UsedEntry(len: nat)
    | CursorUpdate(next: U16)
    | Interrupt

  /** An effect for a head; `at` and `open` are the device's state when it was made. */
  datatype Event = Event(effect: Effect, head: U16, epoch: nat, at: nat, open: bool)

  /** A request waiting for the disk. */
  datatype Flight = Flight(epoch: nat, next: U16, head: U16, io: Io)

  datatype Device = Device(epoch: nat, closed: bool, avail: U16, flight: Option<Flight>, log: seq<Event>)

  /** What the chain at a head holds. */
  datatype Chain = BadChain | BadRequest | Refused(unsupported: bool) | Waits(io: Io)

  /** Which guest memory writes of a step succeed, and how the disk answered. */
  datatype Env = Env(dataOk: bool, statusOk: bool, usedOk: bool, diskOk: bool, bytes: nat)

  predicate IsCurrent(d: Device, epoch: nat) {
    !d.closed && epoch == d.epoch
  }

  function MakeEvent(d: Device, effect: Effect, f: Flight): Event {
    Event(effect, f.head, f.epoch, d.epoch, !d.closed)
  }

  function Record(d: Device, effect: Effect, f: Flight): Device {
    d.(log := d.log + [MakeEvent(d, effect, f)])
  }

  function WriteStatus(d: Device, f: Flight, status: nat, ok: bool): (Device, Option<nat>) {
    if !IsCurrent(d, f.epoch) || !ok then (d, None) else (Record(d, StatusWrite(status), f), Some(status))
  }

  /** Writes the status and returns the one to account for: an error when it could not be written. */
  function Conclude(d: Device, f: Flight, status: nat, ok: bool): (Device, nat) {
    var (e, written) := WriteStatus(d, f, status, ok);
    (e, if written.Some? then written.value else STATUS_IOERR)
  }

  function WriteData(d: Device, f: Flight, len: nat, ok: bool): (Device, bool) {
    if !IsCurrent(d, f.epoch) || !ok then (d, false) else (Record(d, DataWrite(len), f), true)
  }

  /** The rest of `execute` once the disk has answered. */
  function Execute(d: Device, f: Flight, env: Env): (Device, nat) {
    var a := if IsCurrent(d, f.epoch) then Record(d, DiskAnswer(env.diskOk, env.bytes), f) else d;
    match f.io
    case ReadDisk(total) =>
      if !env.diskOk || env.bytes != total then Conclude(a, f, STATUS_IOERR, env.statusOk)
      else
        var (e, written) := WriteData(a, f, total, env.dataOk);
        Conclude(e, f, if written then STATUS_OK else STATUS_IOERR, env.statusOk)
    case _ => Conclude(a, f, if env.diskOk then STATUS_OK else STATUS_IOERR, env.statusOk)
  }

  /** Publishes the completion, moves the cursor and signals, unless the epoch moved or the used ring cannot be written. */
  function Complete(d: Device, f: Flight, len: nat, usedOk: bool): Device {
    if !IsCurrent(d, f.epoch) || !usedOk then d
    else
      var next := Wrap16(f.next + 1);
      Record(Record(Record(d, UsedEntry(len), f), CursorUpdate(next), f), Interrupt, f).(avail := next)
  }

  function UsedLen(f: Flight, status: nat): nat {
    if f.io.ReadDisk? && status == STATUS_OK then f.io.total + 1 else 1
  }

  function Resume(d: Device, env: Env): Device {
    if d.flight.None? then d
    else
      var f := d.flight.value;
      var (e, status) := Execute(d.(flight := None), f, env);
      if !IsCurrent(e, f.epoch) then e else Complete(e, f, UsedLen(f, status), env.usedOk)
  }

  /** One look at the available ring; only `Waits` leaves a request in flight, after its disk access is issued. */
  function Begin(d: Device, available: U16, slots: seq<U16>, chain: Chain, env: Env): Device {
    if d.closed || d.flight.Some? || slots == [] then d
    else
      var (cursor, count) := Resync(d.avail, available, |slots|);
      if count == 0 then Record(d, CursorUpdate(cursor), Flight(d.epoch, cursor, 0, Flush)).(avail := cursor)
      else
        var f := Flight(d.epoch, cursor, slots[Mod(cursor, |slots|)], if chain.Waits? then chain.io else Flush);
        match chain
        case BadChain => Complete(d, f, 0, env.usedOk)
        case BadRequest =>
          var (e, written) := WriteStatus(d, f, STATUS_IOERR, env.statusOk);
          if written.None? then e else Complete(e, f, 1, env.usedOk)
        case Refused(unsupported) =>
          Complete(Conclude(d, f, if unsupported then STATUS_UNSUPP else STATUS_IOERR, env.statusOk).0, f, 1, env.usedOk)
        case Waits(io) => Record(d, DiskAccess(io), f).(flight := Some(f))
  }

  function Reset(d: Device): Device {
    d.(epoch := d.epoch + 1, avail := 0)
  }

  // ----- What the log shows

  /** Made for the epoch that was current, while the device was open. */
  predicate Timely(e: Event) {
    e.epoch == e.at && e.open
  }

  /** The event `k` places back is that effect of the same request. */
  predicate Follows(log: seq<Event>, j: nat, k: nat, effect: Effect)
    requires j < |log|
  {
    k <= j && log[j - k] == log[j].(effect := effect)
  }

  /** The disk was asked and answered well just before, and a read has delivered all its data. */
  predicate Succeeded(log: seq<Event>, j: nat)
    requires j < |log|
  {
    || (j >= 2 && log[j - 1].effect.DiskAnswer? && Follows(log, j, 1, DiskAnswer(true, log[j - 1].effect.bytes))
        && log[j - 2].effect.DiskAccess? && !log[j - 2].effect.io.ReadDisk? && Follows(log, j, 2, DiskAccess(log[j - 2].effect.io)))
    || (j >= 3 && log[j - 1].effect.DataWrite? && Follows(log, j, 1, DataWrite(log[j - 1].effect.len)))
  }

  /** A status OK tells of success, data is what the disk answered to a read of that length, and a used length above the
      status byte is that of the data with status OK. */
  predicate Grounded(log: seq<Event>, j: nat)
    requires j < |log|
  {
    match log[j].effect
    case StatusWrite(status) => status == STATUS_OK ==> Succeeded(log, j)
    case DataWrite(len) => Follows(log, j, 1, DiskAnswer(true, len)) && Follows(log, j, 2, DiskAccess(ReadDisk(len)))
    case UsedEntry(len) => len > 1 ==> Follows(log, j, 1, StatusWrite(STATUS_OK)) && Follows(log, j, 2, DataWrite(len - 1))
    case _ => true
  }

  /** After a used entry the cursor has moved and the guest is interrupted. */
  predicate Announced(log: seq<Event>, j: nat)
    requires j < |log|
  {
    log[j].effect.UsedEntry? ==>
      && j + 2 < |log| && log[j + 1].effect.CursorUpdate?
      && log[j + 1] == log[j].(effect := log[j + 1].effect) && log[j + 2] == log[j].(effect := Interrupt)
  }

  predicate LogOk(log: seq<Event>) {
    forall j :: 0 <= j < |log| ==> Timely(log[j]) && Grounded(log, j) && Announced(log, j)
  }

  /** The heads of the used entries in a log, in order. */
  function UsedHeads(log: seq<Event>): seq<U16> {
    if log == [] then []
    else
      var last := log[|log| - 1];
      UsedHeads(log[..|log| - 1]) + if last.effect.UsedEntry? then [last.head] else []
  }

  function Since(log: seq<Event>, start: nat): seq<U16>
    requires start <= |log|
  {
    UsedHeads(log[start..])
  }

  lemma SinceAppend(log: seq<Event>, start: nat, e: Event)
    requires start <= |log|
    ensures Since(log + [e], start) == Since(log, start) + if e.effect.UsedEntry? then [e.head] else []
  {
    assert (log + [e])[start..] == log[start..] + [e];
    assert (log[start..] + [e])[..|log| - start] == log[start..];
  }

  // ----- One device

  predicate FlightOk(d: Device) {
    d.flight.Some? ==>
      var f := d.flight.value;
      f.epoch < d.epoch || (f.epoch == d.epoch && f.next == d.avail && Asked(d, f))
  }

  /** The request's disk access is the latest effect. */
  predicate Asked(d: Device, f: Flight) {
    d.log != [] && d.log[|d.log| - 1] == Event(DiskAccess(f.io), f.head, f.epoch, f.epoch, true)
  }

  predicate DeviceOk(d: Device) {
    LogOk(d.log) && FlightOk(d)
  }

  /** Only the log grew, and by no used entry since `start`. */
  predicate Quiet(d: Device, e: Device, start: nat) {
    && start <= |d.log| <= |e.log| && e == d.(log := e.log) && LogOk(e.log)
    && Since(e.log, start) == Since(d.log, start)
  }

  lemma RecordOk(d: Device, effect: Effect, f: Flight, start: nat)
    requires LogOk(d.log) && IsCurrent(d, f.epoch) && !effect.UsedEntry? && start <= |d.log|
    requires Grounded(d.log + [MakeEvent(d, effect, f)], |d.log|)
    ensures Quiet(d, Record(d, effect, f), start)
  {
    var e := MakeEvent(d, effect, f);
    var after := d.log + [e];
    SinceAppend(d.log, start, e);
    forall j | 0 <= j < |after|
      ensures Timely(after[j]) && Grounded(after, j) && Announced(after, j)
    {
      if j < |d.log| { EarlierOk(d.log, [e], j); }
    }
  }

  /** What a log shows of an event does not depend on later ones. */
  lemma EarlierOk(log: seq<Event>, more: seq<Event>, j: nat)
    requires LogOk(log) && j < |log|
    ensures Timely((log + more)[j]) && Grounded(log + more, j) && Announced(log + more, j)
  {
    assert forall i :: 0 <= i < |log| ==> (log + more)[i] == log[i];
    assert Timely(log[j]) && Grounded(log, j) && Announced(log, j);
  }

  /** The status of a request that is not reported as done well needs no grounds. */
  lemma FailOk(d: Device, f: Flight, status: nat, ok: bool, start: nat)
    requires LogOk(d.log) && status != STATUS_OK && start <= |d.log|
    ensures Quiet(d, WriteStatus(d, f, status, ok).0, start)
    ensures WriteStatus(d, f, status, ok).1 != Some(STATUS_OK)
  {
    hide LogOk;
    if IsCurrent(d, f.epoch) && ok { RecordOk(d, StatusWrite(status), f, start); }
  }

  lemma CompleteOk(d: Device, f: Flight, len: nat, start: nat)
    requires LogOk(d.log) && IsCurrent(d, f.epoch) && start <= |d.log|
    requires Grounded(d.log + [MakeEvent(d, UsedEntry(len), f)], |d.log|)
    ensures var e := Complete(d, f, len, true);
            && LogOk(e.log) && e == d.(log := e.log, avail := Wrap16(f.next + 1)) && |d.log| <= |e.log|
            && Since(e.log, start) == Since(d.log, start) + [f.head]
  {
    hide LogOk, Grounded;
    var used, cursor, irq := MakeEvent(d, UsedEntry(len), f), MakeEvent(d, CursorUpdate(Wrap16(f.next + 1)), f), MakeEvent(d, Interrupt, f);
    SinceAppend(d.log, start, used);
    SinceAppend(d.log + [used], start, cursor);
    SinceAppend(d.log + [used] + [cursor], start, irq);
    assert d.log + [used] + [cursor] + [irq] == d.log + [used, cursor, irq];
    UsedOk(d.log, used, cursor, irq);
  }

  lemma UsedOk(log: seq<Event>, used: Event, cursor: Event, irq: Event)
    requires LogOk(log) && Timely(used) && used.effect.UsedEntry? && Grounded(log + [used], |log|)
    requires cursor.effect.CursorUpdate? && cursor == used.(effect := cursor.effect) && irq == used.(effect := Interrupt)
    ensures LogOk(log + [used, cursor, irq])
  {
    var after := log + [used, cursor, irq];
    forall j | 0 <= j < |after|
      ensures Timely(after[j]) && Grounded(after, j) && Announced(after, j)
    {
      if j < |log| {
        EarlierOk(log, [used, cursor, irq], j);
      } else if j == |log| {
        assert forall i :: 0 <= i <= j ==> after[i] == (log + [used])[i];
      }
    }
  }

  lemma QuietTransitive(a: Device, b: Device, c: Device, start: nat)
    requires Quiet(a, b, start) && Quiet(b, c, start)
    ensures Quiet(a, c, start)
  {
    hide LogOk, Since;
  }

  /** The status of a request that succeeded, and the used length it allows. */
  lemma SuccessOk(d: Device, f: Flight, ok: bool, start: nat)
    requires LogOk(d.log) && start <= |d.log| && IsCurrent(d, f.epoch)
    requires Succeeded(d.log + [MakeEvent(d, StatusWrite(STATUS_OK), f)], |d.log|)
    requires f.io.ReadDisk? ==> d.log != [] && d.log[|d.log| - 1] == MakeEvent(d, DataWrite(f.io.total), f)
    ensures var (e, status) := Conclude(d, f, STATUS_OK, ok);
            Quiet(d, e, start) && Grounded(e.log + [MakeEvent(e, UsedEntry(UsedLen(f, status)), f)], |e.log|)
  {
    hide LogOk, Succeeded;
    if ok { RecordOk(d, StatusWrite(STATUS_OK), f, start); }
  }

  /** The guest gets the data of a read that was answered in full. */
  lemma ReadOk(d: Device, f: Flight, start: nat)
    requires LogOk(d.log) && start <= |d.log| && IsCurrent(d, f.epoch) && f.io.ReadDisk? && |d.log| >= 2
    requires d.log[|d.log| - 1] == MakeEvent(d, DiskAnswer(true, f.io.total), f) && d.log[|d.log| - 2] == MakeEvent(d, DiskAccess(f.io), f)
    ensures var e := Record(d, DataWrite(f.io.total), f);
            Quiet(d, e, start) && Succeeded(e.log + [MakeEvent(e, StatusWrite(STATUS_OK), f)], |e.log|)
  {
    hide LogOk;
    RecordOk(d, DataWrite(f.io.total), f, start);
  }

  lemma AnswerOk(d: Device, f: Flight, env: Env, start: nat)
    requires LogOk(d.log) && start <= |d.log| && IsCurrent(d, f.epoch) && Asked(d, f)
    ensures var a := Record(d, DiskAnswer(env.diskOk, env.bytes), f);
            && Quiet(d, a, start) && |a.log| >= 2
            && a.log[|a.log| - 1] == MakeEvent(a, DiskAnswer(env.diskOk, env.bytes), f) && a.log[|a.log| - 2] == MakeEvent(a, DiskAccess(f.io), f)
            && (env.diskOk && !f.io.ReadDisk? ==> Succeeded(a.log + [MakeEvent(a, StatusWrite(STATUS_OK), f)], |a.log|))
  {
    hide LogOk;
    RecordOk(d, DiskAnswer(env.diskOk, env.bytes), f, start);
  }

  lemma FailConcludes(d: Device, f: Flight, ok: bool, start: nat)
    requires LogOk(d.log) && start <= |d.log|
    ensures var (e, status) := Conclude(d, f, STATUS_IOERR, ok);
            Quiet(d, e, start) && Grounded(e.log + [MakeEvent(e, UsedEntry(UsedLen(f, status)), f)], |e.log|)
  {
    hide LogOk;
    FailOk(d, f, STATUS_IOERR, ok, start);
  }

  /** Executing a current request justifies the used entry to come; one that is not current leaves no trace. */
  lemma ExecuteOk(d: Device, f: Flight, env: Env, start: nat)
    requires LogOk(d.log) && start <= |d.log| && (IsCurrent(d, f.epoch) ==> Asked(d, f))
    ensures var (e, status) := Execute(d, f, env);
            && Quiet(d, e, start)
            && (IsCurrent(d, f.epoch) ==> Grounded(e.log + [MakeEvent(e, UsedEntry(UsedLen(f, status)), f)], |e.log|))
  {
    if IsCurrent(d, f.epoch) {
      hide LogOk, Quiet, Grounded, Succeeded, Conclude, Asked;
      AnswerOk(d, f, env, start);
      var a := Record(d, DiskAnswer(env.diskOk, env.bytes), f);
      assert LogOk(a.log) && start <= |a.log| by { QuietFacts(d, a, start); }
      if f.io.ReadDisk? && env.diskOk && env.bytes == f.io.total && env.dataOk {
        ReadOk(a, f, start);
        var e := Record(a, DataWrite(f.io.total), f);
        QuietFacts(a, e, start);
        SuccessOk(e, f, env.statusOk, start);
        QuietTransitive(d, a, e, start);
        QuietTransitive(d, e, Conclude(e, f, STATUS_OK, env.statusOk).0, start);
      } else if !f.io.ReadDisk? && env.diskOk {
        SuccessOk(a, f, env.statusOk, start);
        QuietTransitive(d, a, Conclude(a, f, STATUS_OK, env.statusOk).0, start);
      } else {
        FailConcludes(a, f, env.statusOk, start);
        QuietTransitive(d, a, Conclude(a, f, STATUS_IOERR, env.statusOk).0, start);
      }
    }
  }

  lemma QuietFacts(d: Device, e: Device, start: nat)
    requires Quiet(d, e, start)
    ensures LogOk(e.log) && start <= |e.log|
  {
  }

  /** The device stays where it was or passes exactly one head, in the same epoch. */
  predicate Passes(d: Device, e: Device, start: nat, head: U16) {
    && DeviceOk(e) && e.epoch == d.epoch && e.closed == d.closed && start <= |d.log| <= |e.log|
    && if e.avail == d.avail then Since(e.log, start) == Since(d.log, start)
       else e.avail == Wrap16(d.avail + 1) && e.flight.None? && Since(e.log, start) == Since(d.log, start) + [head]
  }

  lemma ResumeOk(d: Device, env: Env, start: nat)
    requires DeviceOk(d) && start <= |d.log| && d.flight.Some?
    ensures Passes(d, Resume(d, env), start, d.flight.value.head) && Resume(d, env).flight.None?
    ensures !IsCurrent(d, d.flight.value.epoch) ==> Resume(d, env).avail == d.avail
  {
    hide LogOk, Grounded, Execute, Complete;
    var f := d.flight.value;
    var landed := d.(flight := None);
    ExecuteOk(landed, f, env, start);
    var (e, status) := Execute(landed, f, env);
    if IsCurrent(e, f.epoch) {
      if env.usedOk { CompleteOk(e, f, UsedLen(f, status), start); } else { Unpublished(e, f, UsedLen(f, status)); }
    }
  }

  lemma Unpublished(d: Device, f: Flight, len: nat)
    ensures Complete(d, f, len, false) == d
  {
  }

  /** A look at a ring with a head at the cursor. */
  lemma ServeOk(d: Device, available: U16, slots: seq<U16>, chain: Chain, env: Env, start: nat)
    requires DeviceOk(d) && !d.closed && d.flight.None? && slots != [] && start <= |d.log|
    requires Resync(d.avail, available, |slots|).1 > 0
    ensures var e := Begin(d, available, slots, chain, env); var head := slots[Mod(d.avail, |slots|)];
            && Passes(d, e, start, head)
            && (e.flight.Some? ==> e.flight.value.head == head && e.flight.value.epoch == d.epoch && e.avail == d.avail)
  {
    hide DeviceOk, Complete, Mod, Passes, WriteStatus, Record;
    var f := Flight(d.epoch, d.avail, slots[Mod(d.avail, |slots|)], if chain.Waits? then chain.io else Flush);
    match chain
    case BadChain => BadChainOk(d, f, env, start);
    case BadRequest => FailedOk(d, f, STATUS_IOERR, env, start);
    case Refused(unsupported) => FailedOk(d, f, if unsupported then STATUS_UNSUPP else STATUS_IOERR, env, start);
    case Waits(io) => WaitsOk(d, f, start);
  }

  lemma BadChainOk(d: Device, f: Flight, env: Env, start: nat)
    requires DeviceOk(d) && !d.closed && d.flight.None? && start <= |d.log| && f.epoch == d.epoch && f.next == d.avail
    ensures Passes(d, Complete(d, f, 0, env.usedOk), start, f.head) && Complete(d, f, 0, env.usedOk).flight.None?
  {
    hide LogOk, Complete, Since;
    if env.usedOk { CompleteOk(d, f, 0, start); } else { Unpublished(d, f, 0); }
  }

  lemma WaitsOk(d: Device, f: Flight, start: nat)
    requires DeviceOk(d) && !d.closed && d.flight.None? && start <= |d.log| && f.epoch == d.epoch && f.next == d.avail
    ensures var e := Record(d, DiskAccess(f.io), f).(flight := Some(f));
            Passes(d, e, start, f.head) && e.avail == d.avail && e.flight == Some(f)
  {
    hide LogOk, Since;
    RecordOk(d, DiskAccess(f.io), f, start);
  }

  lemma FailedOk(d: Device, f: Flight, status: nat, env: Env, start: nat)
    requires DeviceOk(d) && !d.closed && d.flight.None? && start <= |d.log| && status != STATUS_OK
    requires f.epoch == d.epoch && f.next == d.avail
    ensures var e := WriteStatus(d, f, status, env.statusOk).0;
            Passes(d, e, start, f.head) && Passes(d, Complete(e, f, 1, env.usedOk), start, f.head)
    ensures var e := WriteStatus(d, f, status, env.statusOk).0;
            e.flight.None? && Complete(e, f, 1, env.usedOk).flight.None?
  {
    hide LogOk, Complete, Since;
    FailOk(d, f, status, env.statusOk, start);
    var e := WriteStatus(d, f, status, env.statusOk).0;
    if env.usedOk { CompleteOk(e, f, 1, start); } else { Unpublished(e, f, 1); }
  }

  /** A look that finds nothing moves the cursor to where the guest claims to be. */
  lemma NothingOk(d: Device, available: U16, slots: seq<U16>, chain: Chain, env: Env, start: nat)
    requires DeviceOk(d) && !d.closed && d.flight.None? && slots != [] && start <= |d.log|
    requires Resync(d.avail, available, |slots|).1 == 0
    ensures var e := Begin(d, available, slots, chain, env);
            && DeviceOk(e) && e == d.(log := e.log, avail := Resync(d.avail, available, |slots|).0) && |d.log| <= |e.log|
            && Since(e.log, start) == Since(d.log, start)
  {
    hide LogOk;
    var cursor := Resync(d.avail, available, |slots|).0;
    RecordOk(d, CursorUpdate(cursor), Flight(d.epoch, cursor, 0, Flush), start);
  }

  // ----- The device and the guest's ring

  /** The heads published since the last reset or skip; the first is at position `first` of an unbounded count. */
  datatype Ring = Ring(slots: seq<U16>, first: nat, published: seq<U16>)

  /** `start` is the length of the log at the last reset or skip. */
  datatype Machine = Machine(d: Device, r: Ring, start: nat)

  datatype Step =
    | Publish(head: U16)
    | Look(seen: nat, chain: Chain, env: Env)
    | Overclaim(available: U16)
    | ResumeStep(env: Env)
    | ResetStep(slots: seq<U16>)
    | ConfigureStep(ok: bool, slots: seq<U16>)
    | CloseStep(slots: seq<U16>)

  predicate ValidRing(slots: seq<U16>) {
    0 < |slots| <= MAX_QUEUE && IsPowerOfTwo(|slots|)
  }

  /** How many heads were completed since the last reset or skip. */
  function Done(m: Machine): nat
    requires m.start <= |m.d.log|
  {
    |Since(m.d.log, m.start)|
  }

  /** The guest publishes into free slots, or claims more heads than the ring has slots; the device looks at an index the
      guest has shown; a driver sets up any ring after a reset. */
  predicate Enabled(m: Machine, step: Step) {
    m.start <= |m.d.log| && |m.r.slots| > 0 &&
    match step
    case Publish(head) => |m.r.published| < Done(m) + |m.r.slots|
    case Look(seen, chain, env) => Done(m) <= seen <= |m.r.published|
    case Overclaim(available) => !m.d.closed && m.d.flight.None? && Wrap16(available - m.d.avail) > |m.r.slots|
    case ResumeStep(env) => true
    case ResetStep(slots) => ValidRing(slots)
    case ConfigureStep(ok, slots) => ValidRing(slots)
    case CloseStep(slots) => ValidRing(slots)
  }

  function Restart(d: Device, slots: seq<U16>, first: nat): Machine {
    Machine(d, Ring(slots, first, []), |d.log|)
  }

  function Next(m: Machine, step: Step): Machine
    requires Enabled(m, step)
  {
    match step
    case Publish(head) =>
      m.(r := m.r.(slots := m.r.slots[Mod(m.r.first + |m.r.published|, |m.r.slots|) := head], published := m.r.published + [head]))
    case Look(seen, chain, env) => m.(d := Begin(m.d, Wrap16(m.r.first + seen), m.r.slots, chain, env))
    case Overclaim(available) =>
      Restart(Begin(m.d, available, m.r.slots, BadChain, Env(true, true, true, true, 0)), m.r.slots, available)
    case ResumeStep(env) => m.(d := Resume(m.d, env))
    case ResetStep(slots) => Restart(Reset(m.d), slots, 0)
    case ConfigureStep(ok, slots) =>
      if m.d.closed then m else if ok then Restart(Reset(m.d), slots, 0) else m.(d := m.d.(epoch := m.d.epoch + 1))
    case CloseStep(slots) => Restart(Reset(m.d.(closed := true)), slots, 0)
  }

  /** The slots still hold every published head from `done` on. */
  predicate RingHolds(r: Ring, done: nat) {
    && ValidRing(r.slots) && done <= |r.published| <= done + |r.slots|
    && forall k :: done <= k < |r.published| ==> r.slots[Mod(r.first + k, |r.slots|)] == r.published[k]
  }

  /** Used entries are for the oldest published heads, and the cursor counts them. */
  predicate MachineOk(m: Machine) {
    && DeviceOk(m.d) && m.start <= |m.d.log|
    && RingHolds(m.r, Done(m))
    && Since(m.d.log, m.start) == m.r.published[..Done(m)]
    && m.d.avail == Wrap16(m.r.first + Done(m))
    && InFlightOk(m)
  }

  /** The request in flight is for the oldest head not completed. */
  predicate InFlightOk(m: Machine)
    requires m.start <= |m.d.log|
  {
    m.d.flight.Some? && m.d.flight.value.epoch == m.d.epoch ==>
      Done(m) < |m.r.published| && m.d.flight.value.head == m.r.published[Done(m)]
  }

  lemma PublishOk(m: Machine, head: U16)
    requires MachineOk(m) && Enabled(m, Publish(head))
    ensures MachineOk(Next(m, Publish(head)))
  {
    hide DeviceOk, Mod, IsPowerOfTwo, Since;
    var n, size := |m.r.published|, |m.r.slots|;
    var after := Next(m, Publish(head));
    forall k | Done(m) <= k <= n
      ensures after.r.slots[Mod(m.r.first + k, size)] == after.r.published[k]
    {
      if k < n { NotSameSlot(m.r.first + k, m.r.first + n, size); }
    }
  }

  /** The device moved over the oldest head, or stayed. */
  lemma PassOk(m: Machine, e: Device)
    requires MachineOk(m) && Done(m) < |m.r.published| && Passes(m.d, e, m.start, m.r.published[Done(m)])
    requires e.flight.Some? && e.flight.value.epoch == e.epoch ==> e.flight.value.head == m.r.published[Done(m)] && e.avail == m.d.avail
    ensures MachineOk(m.(d := e))
  {
    hide DeviceOk, Mod, IsPowerOfTwo, Since;
    WrapOffset(m.r.first + Done(m), 1);
  }

  lemma LookOk(m: Machine, seen: nat, chain: Chain, env: Env)
    requires MachineOk(m) && Enabled(m, Look(seen, chain, env))
    ensures MachineOk(Next(m, Look(seen, chain, env)))
  {
    hide LogOk, Mod, IsPowerOfTwo, Since, Resync, Begin, Passes;
    var done, first := Done(m), m.r.first;
    var available := Wrap16(first + seen);
    ResyncCounts(first + done, first + seen, |m.r.slots|);
    if m.d.closed || m.d.flight.Some? {
      NoLook(m.d, available, m.r.slots, chain, env);
    } else if seen == done {
      NothingOk(m.d, available, m.r.slots, chain, env, m.start);
    } else {
      ServeOk(m.d, available, m.r.slots, chain, env, m.start);
      WrapKeepsSlot(first + done, |m.r.slots|);
      PassOk(m, Begin(m.d, available, m.r.slots, chain, env));
    }
  }

  lemma NoLook(d: Device, available: U16, slots: seq<U16>, chain: Chain, env: Env)
    requires d.closed || d.flight.Some?
    ensures Begin(d, available, slots, chain, env) == d
  {
  }

  lemma RestartOk(d: Device, slots: seq<U16>, first: nat)
    requires DeviceOk(d) && ValidRing(slots) && d.avail == Wrap16(first) && (d.flight.Some? ==> d.flight.value.epoch != d.epoch)
    ensures MachineOk(Restart(d, slots, first))
  {
    hide LogOk, Mod, IsPowerOfTwo;
    assert d.log[|d.log|..] == [];
  }

  lemma ResumeStepOk(m: Machine, env: Env)
    requires MachineOk(m)
    ensures MachineOk(m.(d := Resume(m.d, env)))
  {
    hide LogOk, Mod, IsPowerOfTwo, Since, Resume;
    if m.d.flight.None? {
      assert Resume(m.d, env) == m.d by { NothingToResume(m.d, env); }
    } else {
      ResumeOk(m.d, env, m.start);
      var e := Resume(m.d, env);
      if m.d.flight.value.epoch == m.d.epoch {
        PassOk(m, e);
      } else {
        assert e.avail == m.d.avail;
      }
    }
  }

  lemma NothingToResume(d: Device, env: Env)
    requires d.flight.None?
    ensures Resume(d, env) == d
  {
  }

  lemma StepOk(m: Machine, step: Step)
    requires MachineOk(m) && Enabled(m, step)
    ensures MachineOk(Next(m, step))
  {
    hide LogOk, Begin, Resume, Since, Mod, IsPowerOfTwo, Resync;
    match step
    case Publish(head) => PublishOk(m, head);
    case Look(seen, chain, env) => LookOk(m, seen, chain, env);
    case Overclaim(available) =>
      SkipsTo(m.d.avail, available, |m.r.slots|);
      NothingOk(m.d, available, m.r.slots, BadChain, Env(true, true, true, true, 0), 0);
      WrapWord(available);
      RestartOk(Begin(m.d, available, m.r.slots, BadChain, Env(true, true, true, true, 0)), m.r.slots, available);
    case ResumeStep(env) => ResumeStepOk(m, env);
    case ResetStep(slots) => RestartOk(Reset(m.d), slots, 0);
    case ConfigureStep(ok, slots) => RestartOk(Reset(m.d), slots, 0);
    case CloseStep(slots) => RestartOk(Reset(m.d.(closed := true)), slots, 0);
  }

  lemma SkipsTo(next: U16, available: U16, size: nat)
    requires Wrap16(available - next) > size
    ensures Resync(next, available, size) == (available, 0)
  {
  }

  // ----- Whole runs

  predicate IsNew(m: Machine) {
    m.d == Device(0, false, 0, None, []) && ValidRing(m.r.slots) && m.r == Ring(m.r.slots, 0, []) && m.start == 0
  }

  predicate Reaches(m: Machine, steps: seq<Step>, after: Machine)
    decreases |steps|
  {
    if steps == [] then after == m
    else Enabled(m, steps[0]) && Reaches(Next(m, steps[0]), steps[1..], after)
  }

  lemma {:induction false} RunOk(m: Machine, steps: seq<Step>, after: Machine)
    requires MachineOk(m) && Reaches(m, steps, after)
    ensures MachineOk(after)
    decreases |steps|
  {
    hide MachineOk, Next, Enabled;
    if steps != [] {
      StepOk(m, steps[0]);
      RunOk(Next(m, steps[0]), steps[1..], after);
    }
  }

  /** However publications, resets, configurations, closing, skips and failing writes fall between the steps of a request:
      every effect was made for the epoch then current with the device open; a status OK, written data and a used length
      tell what the disk did; every used entry is followed by its cursor update and interrupt. Since the last reset or
      skip the heads with used entries are the oldest published ones, each once and in order, and the cursor is their
      16-bit count. */
  lemma EpochIsolation(new_: Machine, steps: seq<Step>, m: Machine, i: nat)
    requires IsNew(new_) && Reaches(new_, steps, m)
    ensures i < |m.d.log| ==> Timely(m.d.log[i]) && Grounded(m.d.log, i) && Announced(m.d.log, i)
    ensures m.start <= |m.d.log| && Done(m) <= |m.r.published|
    ensures Since(m.d.log, m.start) == m.r.published[..Done(m)] && m.d.avail == Wrap16(m.r.first + Done(m))
  {
    hide Next, Enabled, Grounded, Announced, Reaches, Since;
    assert new_.d.log[0..] == [];
    RestartOk(new_.d, new_.r.slots, 0);
    RunOk(new_, steps, m);
  }

  /** After a reset the request in flight is dropped without a trace. */
  lemma StaleRequestLeavesNoTrace(d: Device, env: Env)
    requires d.flight.Some? && !IsCurrent(d, d.flight.value.epoch)
    ensures Resume(d, env) == d.(flight := None)
  {
  }

  /** A current request whose guest writes succeed is completed: data first when a read was answered in full, then a status
      that is OK exactly when the disk did its work, then the used entry, the cursor and the interrupt. */
  lemma CurrentRequestCompletes(d: Device, env: Env)
    requires d.flight.Some? && IsCurrent(d, d.flight.value.epoch) && env.dataOk && env.statusOk && env.usedOk
    ensures var f := d.flight.value; var full := f.io.ReadDisk? && env.diskOk && env.bytes == f.io.total;
            var done := env.diskOk && (f.io.ReadDisk? ==> env.bytes == f.io.total);
            var effects := [DiskAnswer(env.diskOk, env.bytes)] + (if full then [DataWrite(f.io.total)] else [])
                           + [StatusWrite(if done then STATUS_OK else STATUS_IOERR), UsedEntry(if full then f.io.total + 1 else 1),
                              CursorUpdate(Wrap16(f.next + 1)), Interrupt];
            var e := Resume(d, env);
            && e.flight.None? && e.avail == Wrap16(f.next + 1)
            && e.log == d.log + seq(|effects|, k requires 0 <= k < |effects| => Event(effects[k], f.head, f.epoch, f.epoch, true))
  {
  }
}
