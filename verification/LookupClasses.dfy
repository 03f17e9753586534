/** Allocation of lookup classes to the hosts behind a port: a key is a MAC and a VLAN, a class is
    handed out to the first holder of a key and kept until the last one is gone. */
module LookupClasses {

  type Class = nat

  datatype Key = Key(mac: nat, vlan: nat)

  datatype Slot = Slot(classID: Class, refCnt: int)

  /** The two cross-indexed maps kept for one port. */
  datatype PortState = PortState(slots: map<Key, Slot>, counts: map<Class, int>)

  /** `Failed` is a CHECK that did not hold. */
  datatype Outcome = Running(port: PortState) | Failed

  function InitPort(classes: set<Class>): PortState
  {
    PortState(map[], map c | c in classes :: 0)
  }

  predicate Better(counts: map<Class, int>, c: Class, d: Class)
    requires c in counts && d in counts
  {
    counts[c] < counts[d] || (counts[c] == counts[d] && c <= d)
  }

  predicate LeastAmong(counts: map<Class, int>, among: set<Class>, c: Class)
    requires among <= counts.Keys
  {
    c in among && forall d | d in among :: Better(counts, c, d)
  }

  /** No class has fewer keys, and none with as few is lower. */
  predicate IsLowestLeast(counts: map<Class, int>, c: Class)
  {
    c in counts && forall d | d in counts :: counts[c] < counts[d] || (counts[c] == counts[d] && c <= d)
  }

  /** The lowest class among those with the fewest keys. */
  predicate IsLeastLoaded(counts: map<Class, int>, c: Class)
  {
    LeastAmong(counts, counts.Keys, c)
  }

  lemma OneMore(counts: map<Class, int>, among: set<Class>, best: Class, c: Class)
    requires among <= counts.Keys && c in counts && LeastAmong(counts, among, best)
    ensures LeastAmong(counts, among + {c}, if Better(counts, best, c) then best else c)
  {
    forall d | d in among + {c} ensures Better(counts, if Better(counts, best, c) then best else c, d) {
      assert d == c || Better(counts, best, d);
    }
  }

  lemma {:induction false} LeastLoadedExists(counts: map<Class, int>, among: set<Class>) returns (c: Class)
    requires among != {} && among <= counts.Keys
    ensures LeastAmong(counts, among, c)
    decreases |among|
  {
    var x :| x in among;
    c := x;
    var rest := among - {x};
    assert among == rest + {x};
    if rest != {} {
      c := LeastLoadedExists(counts, rest);
      OneMore(counts, rest, c, x);
      c := if Better(counts, c, x) then c else x;
    }
  }

  ghost function LeastLoaded(counts: map<Class, int>): (c: Class)
    requires counts != map[]
    ensures IsLeastLoaded(counts, c)
    ensures IsLowestLeast(counts, c)
  {
    assert exists c :: IsLeastLoaded(counts, c) by {
      var c := LeastLoadedExists(counts, counts.Keys);
      assert IsLeastLoaded(counts, c);
    }
    var c :| IsLeastLoaded(counts, c);
    assert forall d | d in counts :: Better(counts, c, d);
    c
  }

  lemma LeastLoadedUnique(counts: map<Class, int>, c: Class)
    requires counts != map[] && IsLeastLoaded(counts, c)
    ensures c == LeastLoaded(counts)
  {
    var d := LeastLoaded(counts);
    assert Better(counts, c, d) && Better(counts, d, c);
  }

  function Count(counts: map<Class, int>, c: Class): int
  {
    if c in counts then counts[c] else 0
  }

  /** `updateNeighborClassID` on a port that has lookup classes. */
  ghost function Add(p: PortState, key: Key): Outcome
  {
    if key in p.slots then
      Running(p.(slots := p.slots[key := p.slots[key].(refCnt := p.slots[key].refCnt + 1)]))
    else if p.counts == map[] then Failed
    else
      var c := LeastLoaded(p.counts);
      Running(PortState(p.slots[key := Slot(c, 1)], p.counts[c := p.counts[c] + 1]))
  }

  /** `removeNeighborFromLocalCacheForEntry`. */
  function Remove(p: PortState, key: Key): Outcome
  {
    if key !in p.slots || p.slots[key].refCnt <= 0 then Failed
    else
      var slot := p.slots[key];
      if slot.refCnt > 1 then Running(p.(slots := p.slots[key := slot.(refCnt := slot.refCnt - 1)]))
      else if Count(p.counts, slot.classID) <= 0 then Failed
      else Running(PortState(p.slots - {key}, p.counts[slot.classID := p.counts[slot.classID] - 1]))
  }

  /** `updateStateObserverLocalCacheForEntry`: an entry found with a class after a warm boot. */
  function Restore(p: PortState, key: Key, classID: Class): Outcome
  {
    if key in p.slots then
      if p.slots[key].classID != classID then Failed
      else Running(p.(slots := p.slots[key := p.slots[key].(refCnt := p.slots[key].refCnt + 1)]))
    else
      Running(PortState(p.slots[key := Slot(classID, 1)], p.counts[classID := Count(p.counts, classID) + 1]))
  }

  // ---- what the operations keep ----

  function KeysOf(p: PortState, c: Class): set<Key>
  {
    set k | k in p.slots && p.slots[k].classID == c
  }

  /** Each counter is the number of keys of its class. */
  ghost predicate CountsMatch(p: PortState)
  {
    && (forall k | k in p.slots :: p.slots[k].classID in p.counts)
    && forall c | c in p.counts :: p.counts[c] == |KeysOf(p, c)|
  }

  function RefCnt(p: PortState, k: Key): int
  {
    if k in p.slots then p.slots[k].refCnt else 0
  }

  /** Each key is there as often as it is held, and not when it is not. */
  ghost predicate RefsMatch(p: PortState, held: multiset<Key>)
  {
    forall k: Key :: RefCnt(p, k) == held[k] && (k in p.slots <==> held[k] > 0)
  }

  ghost predicate Inv(p: PortState, held: multiset<Key>)
  {
    CountsMatch(p) && RefsMatch(p, held)
  }

  ghost predicate Balanced(p: PortState)
  {
    forall c, d | c in p.counts && d in p.counts :: p.counts[c] <= p.counts[d] + 1
  }

  lemma InitKeeps(classes: set<Class>)
    ensures Inv(InitPort(classes), multiset{}) && Balanced(InitPort(classes))
  {
    var p := InitPort(classes);
    assert forall c :: KeysOf(p, c) == {};
  }

  lemma NewKeyCounts(p: PortState, p': PortState, key: Key, c: Class)
    requires CountsMatch(p) && key !in p.slots
    requires p' == PortState(p.slots[key := Slot(c, 1)], p.counts[c := Count(p.counts, c) + 1])
    ensures CountsMatch(p')
  {
    assert Count(p.counts, c) == |KeysOf(p, c)| by {
      assert c !in p.counts ==> KeysOf(p, c) == {};
    }
    forall d | d in p'.counts ensures p'.counts[d] == |KeysOf(p', d)| {
      NewKeyIn(p, p', key, c, d);
    }
  }

  lemma NewKeyIn(p: PortState, p': PortState, key: Key, c: Class, d: Class)
    requires key !in p.slots && p'.slots == p.slots[key := Slot(c, 1)]
    ensures |KeysOf(p', d)| == |KeysOf(p, d)| + if d == c then 1 else 0
  {
    if d == c {
      assert KeysOf(p', d) == KeysOf(p, d) + {key};
    } else {
      assert KeysOf(p', d) == KeysOf(p, d);
    }
  }

  lemma SameKeyCounts(p: PortState, p': PortState, key: Key, n: int)
    requires CountsMatch(p) && key in p.slots
    requires p' == p.(slots := p.slots[key := p.slots[key].(refCnt := n)])
    ensures CountsMatch(p')
  {
    forall d | d in p'.counts ensures p'.counts[d] == |KeysOf(p', d)| {
      assert KeysOf(p', d) == KeysOf(p, d);
    }
  }

  lemma LastKeyCounts(p: PortState, p': PortState, key: Key)
    requires CountsMatch(p) && key in p.slots
    requires var c := p.slots[key].classID; p' == PortState(p.slots - {key}, p.counts[c := p.counts[c] - 1])
    ensures CountsMatch(p')
  {
    var c := p.slots[key].classID;
    forall d | d in p'.counts ensures p'.counts[d] == |KeysOf(p', d)| {
      if d == c {
        assert key in KeysOf(p, d) && KeysOf(p', d) == KeysOf(p, d) - {key};
      } else {
        assert KeysOf(p', d) == KeysOf(p, d);
      }
    }
  }

  /** A key that is held has its class, and the class is known to the counters. */
  lemma HeldCounts(p: PortState, key: Key)
    requires CountsMatch(p) && key in p.slots
    ensures Count(p.counts, p.slots[key].classID) > 0
  {
    assert key in KeysOf(p, p.slots[key].classID);
  }

  lemma AddKeeps(p: PortState, held: multiset<Key>, key: Key)
    requires Inv(p, held) && p.counts != map[]
    ensures Add(p, key).Running? && Inv(Add(p, key).port, held + multiset{key})
    ensures Add(p, key).port.counts.Keys == p.counts.Keys
    ensures Balanced(p) ==> Balanced(Add(p, key).port)
  {
    var p' := Add(p, key).port;
    if key in p.slots {
      SameKeyCounts(p, p', key, p.slots[key].refCnt + 1);
    } else {
      NewKeyCounts(p, p', key, LeastLoaded(p.counts));
    }
  }

  /** A key that is new gets the lowest of the classes with the fewest keys, and every key that has a
      class keeps it. */
  lemma AddsLeastLoaded(p: PortState, key: Key)
    requires p.counts != map[]
    ensures var r := Add(p, key);
            && r.Running? && key in r.port.slots
            && (forall k | k in p.slots :: k in r.port.slots && r.port.slots[k].classID == p.slots[k].classID)
            && (key !in p.slots ==> IsLowestLeast(p.counts, r.port.slots[key].classID))
  {
  }

  /** Removing a held key never meets a failing CHECK. */
  lemma RemoveKeeps(p: PortState, held: multiset<Key>, key: Key)
    requires Inv(p, held) && key in held
    ensures Remove(p, key).Running? && Inv(Remove(p, key).port, held - multiset{key})
    ensures Remove(p, key).port.counts.Keys == p.counts.Keys
  {
    HeldCounts(p, key);
    var p' := Remove(p, key).port;
    if p.slots[key].refCnt > 1 {
      SameKeyCounts(p, p', key, p.slots[key].refCnt - 1);
    } else {
      LastKeyCounts(p, p', key);
    }
  }

  /** Removing a key nobody holds always meets one. */
  lemma RemoveFailsExactly(p: PortState, held: multiset<Key>, key: Key)
    requires Inv(p, held)
    ensures Remove(p, key).Failed? <==> key !in held
  {
    if key in held {
      RemoveKeeps(p, held, key);
    }
  }

  lemma RestoreKeeps(p: PortState, held: multiset<Key>, key: Key, classID: Class)
    requires Inv(p, held)
    ensures Restore(p, key, classID).Failed? <==> key in p.slots && p.slots[key].classID != classID
    ensures Restore(p, key, classID).Running? ==>
              var p' := Restore(p, key, classID).port;
              && Inv(p', held + multiset{key}) && p'.slots[key].classID == classID
              && forall k | k in p.slots :: k in p'.slots && p'.slots[k].classID == p.slots[k].classID
  {
    if Restore(p, key, classID).Running? {
      var p' := Restore(p, key, classID).port;
      if key in p.slots {
        SameKeyCounts(p, p', key, p.slots[key].refCnt + 1);
      } else {
        NewKeyCounts(p, p', key, classID);
      }
    }
  }

  // ---- warm boot ----

  datatype Found = Found(key: Key, classID: Class)

  /** The rebuild of one port from the entries found with a class. */
  function Rebuilt(classes: set<Class>, found: seq<Found>): Outcome
  {
    if found == [] then Running(InitPort(classes))
    else
      var before := Rebuilt(classes, found[..|found| - 1]);
      if before.Failed? then Failed
      else Restore(before.port, found[|found| - 1].key, found[|found| - 1].classID)
  }

  ghost predicate Consistent(found: seq<Found>)
  {
    forall i, j | 0 <= i < |found| && 0 <= j < |found| && found[i].key == found[j].key ::
      found[i].classID == found[j].classID
  }

  function KeysFound(found: seq<Found>): multiset<Key>
  {
    if found == [] then multiset{} else KeysFound(found[..|found| - 1]) + multiset{found[|found| - 1].key}
  }

  lemma {:induction false} KeysFoundIn(found: seq<Found>, i: nat)
    requires i < |found|
    ensures found[i].key in KeysFound(found)
  {
    if i < |found| - 1 {
      KeysFoundIn(found[..|found| - 1], i);
    }
  }

  lemma {:induction false} KeysFoundOnly(found: seq<Found>, key: Key) returns (i: nat)
    requires key in KeysFound(found)
    ensures i < |found| && found[i].key == key
  {
    if found[|found| - 1].key == key {
      i := |found| - 1;
    } else {
      i := KeysFoundOnly(found[..|found| - 1], key);
    }
  }

  /** Every key of a rebuilt port has the class all its entries were found with. */
  ghost predicate HasFound(p: PortState, found: seq<Found>)
  {
    forall i | 0 <= i < |found| :: found[i].key in p.slots && p.slots[found[i].key].classID == found[i].classID
  }

  lemma InconsistentPrefix(found: seq<Found>, n: nat)
    requires n <= |found| && !Consistent(found[..n])
    ensures !Consistent(found)
  {
    var before := found[..n];
    var i, j :| 0 <= i < |before| && 0 <= j < |before| && before[i].key == before[j].key
                && before[i].classID != before[j].classID;
    assert found[i] == before[i] && found[j] == before[j];
  }

  lemma FoundMore(p: PortState, p': PortState, found: seq<Found>)
    requires found != [] && HasFound(p, found[..|found| - 1])
    requires forall k | k in p.slots :: k in p'.slots && p'.slots[k].classID == p.slots[k].classID
    requires var last := found[|found| - 1]; last.key in p'.slots && p'.slots[last.key].classID == last.classID
    ensures HasFound(p', found)
  {
    var before := found[..|found| - 1];
    assert forall i | 0 <= i < |before| :: found[i] == before[i];
  }

  lemma RestoreFound(p: PortState, found: seq<Found>)
    requires found != []
    requires Inv(p, KeysFound(found[..|found| - 1])) && HasFound(p, found[..|found| - 1])
    ensures var last := found[|found| - 1]; var r := Restore(p, last.key, last.classID);
            r.Running? ==> Inv(r.port, KeysFound(found)) && HasFound(r.port, found)
  {
    var before, last := found[..|found| - 1], found[|found| - 1];
    var held := KeysFound(before);
    assert KeysFound(found) == held + multiset{last.key};
    var r := Restore(p, last.key, last.classID);
    if r.Running? {
      RestoreKeeps(p, held, last.key, last.classID);
      assert last.key in r.port.slots;
      FoundMore(p, r.port, found);
    }
  }

  /** The rebuild meets a failing CHECK exactly when two entries of one key were found with
      different classes; otherwise every key has its class again and is held as often as found. */
  lemma {:induction false} RebuildExact(classes: set<Class>, found: seq<Found>)
    ensures Rebuilt(classes, found).Running? <==> Consistent(found)
    ensures Rebuilt(classes, found).Running? ==>
              Inv(Rebuilt(classes, found).port, KeysFound(found)) && HasFound(Rebuilt(classes, found).port, found)
  {
    if found == [] {
      InitKeeps(classes);
    } else {
      var before := found[..|found| - 1];
      RebuildExact(classes, before);
      if Rebuilt(classes, before).Failed? {
        InconsistentPrefix(found, |found| - 1);
      } else {
        RestoreFound(Rebuilt(classes, before).port, found);
        RebuildConsistent(found, Rebuilt(classes, before).port);
      }
    }
  }

  lemma RebuildConsistent(found: seq<Found>, p: PortState)
    requires found != [] && HasFound(p, found[..|found| - 1])
    requires Consistent(found[..|found| - 1])
    requires forall key | key in p.slots :: key in KeysFound(found[..|found| - 1])
    ensures var last := found[|found| - 1];
            Consistent(found) <==> !(last.key in p.slots && p.slots[last.key].classID != last.classID)
  {
    var before, last := found[..|found| - 1], found[|found| - 1];
    assert forall i | 0 <= i < |before| :: found[i] == before[i];
    if last.key in p.slots {
      var i := KeysFoundOnly(before, last.key);
      assert found[i].key == last.key && p.slots[last.key].classID == found[i].classID;
    }
  }
}
