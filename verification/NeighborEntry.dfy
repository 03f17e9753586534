/** One entry of a neighbor cache: its fields and the machine that probes and expires it. */
module NeighborEntry {

  import opened Wrappers

  type Address = nat

  const BROADCAST: nat := 0xFFFF_FFFF_FFFF

  /** What is programmed for an address; a pending entry has no MAC and no port of its own. */
  datatype Fields = Fields(mac: nat, port: nat, intf: nat, pending: bool, classID: Option<nat>)

  function PendingFields(intf: nat): Fields
  {
    Fields(BROADCAST, 0, intf, true, None)
  }

  /** `fieldsMatch`: everything but the class. */
  predicate FieldsMatch(a: Fields, b: Fields)
  {
    a.mac == b.mac && a.port == b.port && a.intf == b.intf && a.pending == b.pending
  }

  datatype EntryState = UNINITIALIZED | INCOMPLETE | DELAY | PROBE | STALE | REACHABLE | EXPIRED

  datatype Entry = Entry(fields: Fields, state: EntryState, probesLeft: Byte, scheduled: bool)

  datatype Probe = Multicast(ip: Address) | Unicast(ip: Address, mac: nat, port: nat)

  datatype Moved = Moved(entry: Entry, probes: seq<Probe>)

  /** The configured maximum is wider than the counter it is stored in. */
  function Counter(n: int): Byte
  {
    n % 0x100
  }

  function ProbeIfProbesLeft(ip: Address, e: Entry): Moved
  {
    if e.probesLeft == 0 then Moved(e.(state := EXPIRED), [])
    else Moved(e.(probesLeft := e.probesLeft - 1),
               [if e.state == INCOMPLETE then Multicast(ip) else Unicast(ip, e.fields.mac, e.fields.port)])
  }

  function ProbeStaleIfHit(ip: Address, e: Entry, hit: bool): Moved
  {
    if hit then ProbeIfProbesLeft(ip, e.(state := PROBE)) else Moved(e, [])
  }

  /** States `runStateMachine` accepts; it raises an error in the others. */
  predicate Runnable(s: EntryState)
  {
    s == INCOMPLETE || s == PROBE || s == STALE || s == REACHABLE
  }

  function RunStateMachine(ip: Address, e: Entry, hit: bool): Moved
    requires Runnable(e.state)
  {
    if e.state == INCOMPLETE || e.state == PROBE then ProbeIfProbesLeft(ip, e)
    else ProbeStaleIfHit(ip, e.(state := STALE), hit)
  }

  /** The states an entry may be put in from outside. */
  predicate Enterable(s: EntryState)
  {
    s == INCOMPLETE || s == REACHABLE || s == STALE
  }

  function Scheduled(m: Moved): Moved
  {
    if m.entry.state == EXPIRED then m else m.(entry := m.entry.(scheduled := true))
  }

  function Enter(ip: Address, e: Entry, s: EntryState, maxProbes: nat, hit: bool): Moved
    requires Enterable(s)
  {
    var entered := e.(state := s, probesLeft := Counter(if s == INCOMPLETE then maxProbes - 1 else maxProbes));
    Scheduled(if s == STALE then RunStateMachine(ip, entered, hit) else Moved(entered, []))
  }

  function NewEntry(ip: Address, fields: Fields, s: EntryState, maxProbes: nat, hit: bool): Moved
    requires Enterable(s)
  {
    Enter(ip, Entry(fields, UNINITIALIZED, Counter(maxProbes), false), s, maxProbes, hit)
  }

  /** The timer goes off and `process` runs. */
  function Fired(ip: Address, e: Entry, hit: bool): Moved
    requires Runnable(e.state)
  {
    Scheduled(RunStateMachine(ip, e.(scheduled := false), hit))
  }

  // ---- what every entry keeps ----

  /** A live entry: in a state its timer can run, with the timer set, and INCOMPLETE exactly when
      pending. */
  predicate Live(e: Entry)
  {
    Runnable(e.state) && e.scheduled && (e.state == INCOMPLETE <==> e.fields.pending)
  }

  predicate Sound(e: Entry)
  {
    Live(e) || e.state == EXPIRED
  }

  /** Unicast probes go to a resolved address, and only from an entry that stays. */
  predicate ProbesResolved(ip: Address, m: Moved)
  {
    forall i | 0 <= i < |m.probes| ::
      && m.entry.state != EXPIRED
      && (m.probes[i].Unicast? ==>
            !m.entry.fields.pending && m.probes[i] == Unicast(ip, m.entry.fields.mac, m.entry.fields.port))
  }

  /** Entering leaves a live entry exactly unless the counter starts at zero on a hit entry. */
  lemma EnterLives(ip: Address, e: Entry, s: EntryState, maxProbes: nat, hit: bool)
    requires Enterable(s) && (s == INCOMPLETE <==> e.fields.pending)
    ensures var m := Enter(ip, e, s, maxProbes, hit);
            && m.entry.fields == e.fields && ProbesResolved(ip, m) && Sound(m.entry)
            && (Live(m.entry) <==> !(s == STALE && hit && Counter(maxProbes) == 0))
            && (!Live(m.entry) ==> m.entry.state == EXPIRED && m.entry.scheduled == e.scheduled)
  {
  }

  lemma FiredLives(ip: Address, e: Entry, hit: bool)
    requires Live(e)
    ensures var m := Fired(ip, e, hit);
            m.entry.fields == e.fields && ProbesResolved(ip, m) && Sound(m.entry)
  {
  }

  // ---- how many probes go unanswered before an entry expires ----

  /** The entry after one firing for each of `hits`, the hit bits they find, and the probes they sent,
      until it expires. */
  function Unanswered(ip: Address, e: Entry, hits: seq<bool>): (m: Moved)
  {
    if hits == [] then Moved(e, [])
    else
      var before := Unanswered(ip, e, hits[..|hits| - 1]);
      if !Runnable(before.entry.state) then before
      else
        var now := Fired(ip, before.entry, hits[|hits| - 1]);
        Moved(now.entry, before.probes + now.probes)
  }

  /** A probing entry sends exactly as many probes as its counter says, one per firing, and
      expires at the firing after that, not earlier. */
  lemma {:induction false} ProbesThenExpires(ip: Address, e: Entry, hits: seq<bool>)
    requires e.state == INCOMPLETE || e.state == PROBE
    ensures var m, n := Unanswered(ip, e, hits), |hits|;
            if n <= e.probesLeft then
              && |m.probes| == n && m.entry.state == e.state && m.entry.probesLeft == e.probesLeft - n
            else
              |m.probes| == e.probesLeft && m.entry.state == EXPIRED
  {
    if hits != [] {
      ProbesThenExpires(ip, e, hits[..|hits| - 1]);
    }
  }

  predicate Resting(s: EntryState)
  {
    s == STALE || s == REACHABLE
  }

  /** The first firing that finds the entry hit is `k`, if there is one. */
  predicate FirstHit(hits: seq<bool>, k: nat)
  {
    (forall j | 0 <= j < k && j < |hits| :: !hits[j]) && (k < |hits| ==> hits[k])
  }

  /** An entry that is STALE or REACHABLE is STALE from its first firing on, and sends nothing until a
      firing finds it hit. From that firing on it sends one probe each, as many as its counter says,
      and expires at the next. */
  lemma {:induction false} HitThenExpires(ip: Address, e: Entry, hits: seq<bool>, k: nat)
    requires Resting(e.state) && FirstHit(hits, k)
    ensures var m, n := Unanswered(ip, e, hits), |hits|;
            if n <= k then
              && m.probes == [] && m.entry.probesLeft == e.probesLeft
              && m.entry.state == (if n == 0 then e.state else STALE)
            else if n <= k + e.probesLeft then
              |m.probes| == n - k && m.entry.state == PROBE && m.entry.probesLeft == e.probesLeft - (n - k)
            else
              |m.probes| == e.probesLeft && m.entry.state == EXPIRED
  {
    if hits != [] {
      HitThenExpires(ip, e, hits[..|hits| - 1], k);
    }
  }

  /** Solicitations go out as multicast, checks of reachability to the resolved address. */
  lemma {:induction false} KindOfProbes(ip: Address, e: Entry, hits: seq<bool>)
    requires Runnable(e.state)
    ensures var m := Unanswered(ip, e, hits);
            && m.entry.fields == e.fields && (e.state == INCOMPLETE ==> m.entry.state in {INCOMPLETE, EXPIRED})
            && (e.state != INCOMPLETE ==> m.entry.state != INCOMPLETE)
    ensures forall p | p in Unanswered(ip, e, hits).probes ::
              p == if e.state == INCOMPLETE then Multicast(ip) else Unicast(ip, e.fields.mac, e.fields.port)
  {
    if hits != [] {
      KindOfProbes(ip, e, hits[..|hits| - 1]);
    }
  }

  /** An INCOMPLETE entry, whose first solicitation is already out, sends `maxProbes - 1` more
      exactly when that fits the counter. */
  lemma IncompleteProbes(ip: Address, e: Entry, maxProbes: nat, hits: seq<bool>)
    requires |hits| > Counter(maxProbes - 1)
    ensures var m := Unanswered(ip, Enter(ip, e, INCOMPLETE, maxProbes, false).entry, hits);
            && m.entry.state == EXPIRED && |m.probes| == Counter(maxProbes - 1)
            && (|m.probes| == maxProbes - 1 <==> 1 <= maxProbes <= 0x100)
  {
    ProbesThenExpires(ip, Enter(ip, e, INCOMPLETE, maxProbes, false).entry, hits);
  }

  /** An entry put in STALE or REACHABLE and hit, at once or when its timer finds it so later, sends
      `maxProbes` probes in all exactly when the maximum fits the counter. */
  lemma StaleProbes(ip: Address, e: Entry, s: EntryState, maxProbes: nat, atOnce: bool, hits: seq<bool>, k: nat)
    requires Resting(s)
    requires if s == STALE && atOnce then |hits| >= Counter(maxProbes)
             else |hits| > k + Counter(maxProbes) && FirstHit(hits, k)
    ensures var first := Enter(ip, e, s, maxProbes, atOnce);
            var m := Unanswered(ip, first.entry, hits);
            && m.entry.state == EXPIRED && |first.probes + m.probes| == Counter(maxProbes)
            && (|first.probes + m.probes| == maxProbes <==> maxProbes <= 0xFF)
  {
    var first := Enter(ip, e, s, maxProbes, atOnce);
    if first.entry.state == EXPIRED {
      ExpiredStays(ip, first.entry, hits);
    } else if first.entry.state == PROBE {
      ProbesThenExpires(ip, first.entry, hits);
    } else {
      HitThenExpires(ip, first.entry, hits, k);
    }
  }

  lemma {:induction false} ExpiredStays(ip: Address, e: Entry, hits: seq<bool>)
    requires e.state == EXPIRED
    ensures Unanswered(ip, e, hits) == Moved(e, [])
  {
    if hits != [] {
      ExpiredStays(ip, e, hits[..|hits| - 1]);
    }
  }

  const DEFAULT_MAX_PROBES: nat := 300

  /** With the default of 300, which the counter keeps as 44, an INCOMPLETE entry sends 43 more
      probes instead of 299 and an entry hit while STALE 44 in all. */
  lemma DefaultProbes(ip: Address, e: Entry, s: EntryState, atOnce: bool, hits: seq<bool>, k: nat)
    requires Resting(s)
    requires if s == STALE && atOnce then |hits| >= 44 else |hits| > k + 44 && FirstHit(hits, k)
    ensures var m := Unanswered(ip, Enter(ip, e, INCOMPLETE, DEFAULT_MAX_PROBES, false).entry, hits);
            m.entry.state == EXPIRED && |m.probes| == 43
    ensures var first := Enter(ip, e, s, DEFAULT_MAX_PROBES, atOnce);
            var m := Unanswered(ip, first.entry, hits);
            m.entry.state == EXPIRED && |first.probes + m.probes| == 44
  {
    IncompleteProbes(ip, e, DEFAULT_MAX_PROBES, hits);
    StaleProbes(ip, e, s, DEFAULT_MAX_PROBES, atOnce, hits, k);
  }

  class CacheEntry {
    const ip: Address
    var fields: Fields
    var state: EntryState
    var probesLeft: Byte
    var scheduled: bool

    function Value(): Entry
      reads this
    {
      Entry(fields, state, probesLeft, scheduled)
    }

    constructor (ip: Address, fields: Fields, maxProbes: nat)
      ensures this.ip == ip
      ensures Value() == Entry(fields, UNINITIALIZED, Counter(maxProbes), false)
    {
      this.ip, this.fields := ip, fields;
      state, probesLeft, scheduled := UNINITIALIZED, maxProbes % 0x100, false;
    }

    method UpdateFields(fields: Fields)
      modifies this
      ensures Value() == old(Value()).(fields := fields)
    {
      this.fields := fields;
    }

    method UpdateClassID(classID: Option<nat>)
      modifies this
      ensures Value() == old(Value()).(fields := old(fields).(classID := classID))
    {
      fields := fields.(classID := classID);
    }

    method ProbeIfLeft() returns (probes: seq<Probe>)
      modifies this
      ensures Moved(Value(), probes) == ProbeIfProbesLeft(ip, old(Value()))
    {
      if probesLeft > 0 {
        if state == INCOMPLETE {
          probes := [Multicast(ip)];
        } else {
          probes := [Unicast(ip, fields.mac, fields.port)];
        }
        probesLeft := probesLeft - 1;
      } else {
        state := EXPIRED;
        probes := [];
      }
    }

    method ProbeIfHit(hit: bool) returns (probes: seq<Probe>)
      modifies this
      ensures Moved(Value(), probes) == ProbeStaleIfHit(ip, old(Value()), hit)
    {
      probes := [];
      if hit {
        state := PROBE;
        probes := ProbeIfLeft();
      }
    }

    /** `runStateMachine`: `ok` is false where it throws. */
    method Run(hit: bool) returns (ok: bool, probes: seq<Probe>)
      modifies this
      ensures ok == Runnable(old(state))
      ensures Moved(Value(), probes) ==
              if ok then RunStateMachine(ip, old(Value()), hit) else Moved(old(Value()), [])
    {
      ok, probes := true, [];
      match state
      case INCOMPLETE | PROBE => probes := ProbeIfLeft();
      case STALE => probes := ProbeIfHit(hit);
      case REACHABLE =>
        state := STALE;
        probes := ProbeIfHit(hit);
      case EXPIRED | DELAY | UNINITIALIZED => ok := false;
    }

    method ScheduleNextUpdate()
      modifies this
      ensures Value() == Scheduled(Moved(old(Value()), [])).entry
    {
      if state != EXPIRED {
        scheduled := true;
      }
    }

    /** `maxProbes` is what the cache has configured at the time. */
    method UpdateState(s: EntryState, maxProbes: nat, hit: bool) returns (probes: seq<Probe>)
      requires Enterable(s)
      modifies this
      ensures Moved(Value(), probes) == Enter(ip, old(Value()), s, maxProbes, hit)
    {
      state := s;
      probes := [];
      match s {
        case INCOMPLETE => probesLeft := (maxProbes - 1) % 0x100;
        case REACHABLE => probesLeft := maxProbes % 0x100;
        case STALE =>
          probesLeft := maxProbes % 0x100;
          var _, sent := Run(hit);
          probes := sent;
      }
      ScheduleNextUpdate();
    }

    /** New fields, if they differ, and a new state. */
    method Refresh(fields: Fields, s: EntryState, maxProbes: nat, hit: bool) returns (changed: bool, probes: seq<Probe>)
      requires Enterable(s)
      modifies this
      ensures changed == !FieldsMatch(old(this.fields), fields)
      ensures var kept := if changed then old(Value()).(fields := fields) else old(Value());
              Moved(Value(), probes) == Enter(ip, kept, s, maxProbes, hit)
    {
      changed := !FieldsMatch(this.fields, fields);
      if changed {
        UpdateFields(fields);
      }
      probes := UpdateState(s, maxProbes, hit);
    }

    /** The timer goes off. */
    method Process(hit: bool) returns (ok: bool, probes: seq<Probe>)
      modifies this
      ensures ok == Runnable(old(state))
      ensures Moved(Value(), probes) ==
              if ok then Fired(ip, old(Value()), hit) else Moved(old(Value()).(scheduled := false), [])
    {
      scheduled := false;
      ok, probes := Run(hit);
      if ok && state != EXPIRED {
        ScheduleNextUpdate();
      }
    }
  }
}
