/**
 The skills loaded into a conversation: a move-to-end set that the agent loop
 keeps and that a fold over its log rebuilds.
 */
module Skills {
  import opened Wrappers
  import opened Conversation
  import opened Transcript
  import opened Compaction

  datatype LoadedSkill = LoadedSkill(name: string, contentHash: string)

  /** A skill granted to a run. */
  datatype Granted = Granted(preload: bool)

  /** A skill as it is on disk when it is read again. */
  datatype Installed = Installed(contentHash: string, body: string)

  function Without(loaded: seq<LoadedSkill>, name: string): seq<LoadedSkill> {
    if loaded == [] then []
    else Without(DropLast(loaded), name) + (if Last(loaded).name == name then [] else [Last(loaded)])
  }

  function MoveToEnd(loaded: seq<LoadedSkill>, l: LoadedSkill): seq<LoadedSkill> {
    Without(loaded, l.name) + [l]
  }

  function Names(loaded: seq<LoadedSkill>): seq<string> {
    seq(|loaded|, i requires 0 <= i < |loaded| => loaded[i].name)
  }

  /** Take one event into account. */
  function Note(loaded: seq<LoadedSkill>, ev: Event): seq<LoadedSkill> {
    if ev.SkillLoad? && ev.via != ViaPreload then MoveToEnd(loaded, LoadedSkill(ev.name, ev.contentHash)) else loaded
  }

  function NoteAll(loaded: seq<LoadedSkill>, events: seq<Event>): seq<LoadedSkill> {
    if events == [] then loaded else Note(NoteAll(loaded, DropLast(events)), Last(events))
  }

  /** The loaded set that a log records. */
  function LoadedSkills(events: seq<Event>): seq<LoadedSkill> {
    NoteAll([], events)
  }

  method ReadLoadedSkills(events: seq<Event>) returns (out: seq<LoadedSkill>)
    ensures out == LoadedSkills(events)
    ensures Distinct(Names(out))
  {
    out := [];
    for i := 0 to |events|
      invariant out == LoadedSkills(events[..i])
      invariant Distinct(Names(out))
    {
      assert DropLast(events[..i + 1]) == events[..i];
      if events[i].SkillLoad? && events[i].via != ViaPreload {
        MoveToEndIsDistinct(out, LoadedSkill(events[i].name, events[i].contentHash));
        out := MoveToEnd(out, LoadedSkill(events[i].name, events[i].contentHash));
      }
    }
    assert events[..|events|] == events;
  }

  lemma {:induction false} WithoutMembers(loaded: seq<LoadedSkill>, name: string)
    ensures forall l :: l in Without(loaded, name) <==> l in loaded && l.name != name
    ensures Distinct(Names(loaded)) ==> Distinct(Names(Without(loaded, name)))
  {
    if loaded != [] {
      var front, last := DropLast(loaded), Last(loaded);
      WithoutMembers(front, name);
      assert loaded == front + [last];
      if Distinct(Names(loaded)) {
        assert forall i | 0 <= i < |front| :: Names(front)[i] == Names(loaded)[i] != Names(loaded)[|front|];
        assert Distinct(Names(front)) by {
          assert forall i, j | 0 <= i < j < |front| :: Names(loaded)[i] != Names(loaded)[j];
        }
        var r := Without(front, name);
        forall i, j | 0 <= i < j < |Without(loaded, name)|
          ensures Names(Without(loaded, name))[i] != Names(Without(loaded, name))[j] {
          if j < |r| {
            assert Names(r)[i] != Names(r)[j];
          } else {
            assert r[i] in r;
            var k :| 0 <= k < |front| && front[k] == r[i];
            assert Names(front)[k] == Names(loaded)[k];
          }
        }
      }
    }
  }

  lemma MoveToEndIsDistinct(loaded: seq<LoadedSkill>, l: LoadedSkill)
    requires Distinct(Names(loaded))
    ensures Distinct(Names(MoveToEnd(loaded, l)))
  {
    WithoutMembers(loaded, l.name);
    var r := Without(loaded, l.name);
    var after := MoveToEnd(loaded, l);
    forall i, j | 0 <= i < j < |after| ensures Names(after)[i] != Names(after)[j] {
      if j < |r| {
        assert Names(r)[i] != Names(r)[j];
      } else {
        assert r[i] in r;
      }
    }
  }

  lemma {:induction false} WithoutAbsent(loaded: seq<LoadedSkill>, name: string)
    requires forall l | l in loaded :: l.name != name
    ensures Without(loaded, name) == loaded
  {
    if loaded != [] {
      var front := DropLast(loaded);
      assert loaded == front + [Last(loaded)];
      assert Last(loaded) in loaded;
      forall l | l in front ensures l.name != name {
        assert l in loaded;
      }
      WithoutAbsent(front, name);
    }
  }

  lemma {:induction false} NoteAllConcat(loaded: seq<LoadedSkill>, a: seq<Event>, b: seq<Event>)
    ensures NoteAll(loaded, a + b) == NoteAll(NoteAll(loaded, a), b)
  {
    if b == [] {
      assert a + b == a;
    } else {
      assert DropLast(a + b) == a + DropLast(b);
      NoteAllConcat(loaded, a, DropLast(b));
    }
  }

  /** `picked` are the places of `items`, in order. */
  ghost predicate Places(picked: seq<nat>, n: nat) {
    && (forall k | 0 <= k < |picked| :: picked[k] < n)
    && (forall k, l | 0 <= k < l < |picked| :: picked[k] < picked[l])
  }

  predicate IsLoad(ev: Event) {
    ev.SkillLoad? && ev.via != ViaPreload
  }

  /** The last load of its skill. */
  predicate IsLastLoad(events: seq<Event>, i: nat)
    requires i < |events|
  {
    IsLoad(events[i]) && forall j | i < j < |events| && IsLoad(events[j]) :: events[j].name != events[i].name
  }

  /** `loaded` is, in order, what the loads at `picked` say. */
  ghost predicate LoadsAt(events: seq<Event>, picked: seq<nat>, loaded: seq<LoadedSkill>) {
    && Places(picked, |events|) && |loaded| == |picked|
    && forall k | 0 <= k < |picked| :: LoadAt(events, picked[k], loaded[k])
  }

  predicate LoadAt(events: seq<Event>, i: nat, skill: LoadedSkill)
    requires i < |events|
  {
    IsLoad(events[i]) && skill == LoadedSkill(events[i].name, events[i].contentHash)
  }

  /** What the recorded set is: each skill at its last load, in the order of those
      loads; preloads are no loads. */
  lemma {:induction false} LoadedMeaning(events: seq<Event>) returns (picked: seq<nat>)
    ensures LoadsAt(events, picked, LoadedSkills(events))
    ensures forall i | 0 <= i < |events| :: i in picked <==> IsLastLoad(events, i)
  {
    hide Without, LoadsAt, IsLastLoad;
    picked := [];
    if events == [] {
      NoLoads();
    } else {
      var front, last := DropLast(events), Last(events);
      assert front + [last] == events;
      var before := LoadedMeaning(front);
      LastLoadsAfter(front, last);
      if IsLoad(last) {
        picked := WithoutPlaces(front, LoadedSkills(front), before, last.name);
        LoadsAtMore(front, last, picked, Without(LoadedSkills(front), last.name));
        picked := picked + [|front|];
      } else {
        picked := before;
        LoadsAtLonger(front, last, picked, LoadedSkills(front));
      }
    }
  }

  lemma NoLoads()
    ensures LoadsAt([], [], LoadedSkills([]))
  {
  }

  /** Which loads are the last of their skills, one event later. */
  lemma LastLoadsAfter(front: seq<Event>, e: Event)
    ensures IsLastLoad(front + [e], |front|) <==> IsLoad(e)
    ensures forall i | 0 <= i < |front| :: IsLastLoad(front + [e], i) <==>
              IsLastLoad(front, i) && (IsLoad(e) ==> IsLoad(front[i]) && front[i].name != e.name)
  {
    var events := front + [e];
    forall i | 0 <= i < |front|
      ensures IsLastLoad(events, i) <==>
              IsLastLoad(front, i) && (IsLoad(e) ==> IsLoad(front[i]) && front[i].name != e.name)
    {
      assert events[i] == front[i];
      assert IsLastLoad(front, i) && (IsLoad(e) ==> front[i].name != e.name) ==> IsLastLoad(events, i);
      if IsLastLoad(events, i) {
        assert forall j | i < j < |front| :: front[j] == events[j];
        assert IsLoad(events[|front|]) ==> events[|front|].name != events[i].name;
      }
    }
  }

  lemma LoadsAtLonger(front: seq<Event>, e: Event, picked: seq<nat>, loaded: seq<LoadedSkill>)
    requires LoadsAt(front, picked, loaded)
    ensures LoadsAt(front + [e], picked, loaded) && |front| !in picked
  {
    forall k | 0 <= k < |picked| ensures LoadAt(front + [e], picked[k], loaded[k]) {
      assert LoadAt(front, picked[k], loaded[k]);
    }
  }

  lemma LoadsAtMore(front: seq<Event>, e: Event, picked: seq<nat>, loaded: seq<LoadedSkill>)
    requires LoadsAt(front, picked, loaded) && IsLoad(e)
    ensures LoadsAt(front + [e], picked + [|front|], loaded + [LoadedSkill(e.name, e.contentHash)])
  {
    LoadsAtLonger(front, e, picked, loaded);
    var more, longer := loaded + [LoadedSkill(e.name, e.contentHash)], picked + [|front|];
    forall k | 0 <= k < |longer| ensures LoadAt(front + [e], longer[k], more[k]) {
      assert k < |picked| ==> LoadAt(front + [e], picked[k], loaded[k]);
    }
  }

  /** Taking a name out of the set takes its place out. */
  lemma {:induction false} WithoutPlaces(events: seq<Event>, loaded: seq<LoadedSkill>, picked: seq<nat>, name: string)
    returns (rest: seq<nat>)
    requires LoadsAt(events, picked, loaded)
    ensures LoadsAt(events, rest, Without(loaded, name))
    ensures forall i | 0 <= i < |events| :: i in rest <==> i in picked && IsLoad(events[i]) && events[i].name != name
  {
    rest := [];
    if loaded != [] {
      var front, at := DropLast(picked), Last(picked);
      assert picked == front + [at] && LoadAt(events, at, Last(loaded));
      FrontLoads(events, loaded, picked);
      hide LoadsAt;
      rest := WithoutPlaces(events, DropLast(loaded), front, name);
      if Last(loaded).name != name {
        LastLoadBack(events, Without(DropLast(loaded), name), rest, Last(loaded), at);
        rest := rest + [at];
      }
    }
  }

  lemma FrontLoads(events: seq<Event>, loaded: seq<LoadedSkill>, picked: seq<nat>)
    requires LoadsAt(events, picked, loaded) && loaded != []
    ensures LoadsAt(events, DropLast(picked), DropLast(loaded))
    ensures forall i | i in DropLast(picked) :: i < Last(picked)
  {
    forall k | 0 <= k < |picked| - 1 ensures LoadAt(events, DropLast(picked)[k], DropLast(loaded)[k]) {
      assert LoadAt(events, picked[k], loaded[k]);
    }
  }

  lemma LastLoadBack(events: seq<Event>, loaded: seq<LoadedSkill>, picked: seq<nat>, skill: LoadedSkill, at: nat)
    requires LoadsAt(events, picked, loaded) && at < |events| && LoadAt(events, at, skill)
    requires forall i | i in picked :: i < at
    ensures LoadsAt(events, picked + [at], loaded + [skill])
  {
    var longer, more := picked + [at], loaded + [skill];
    assert forall k | 0 <= k < |picked| :: picked[k] in picked;
    forall k | 0 <= k < |longer| ensures LoadAt(events, longer[k], more[k]) {
      assert k < |picked| ==> LoadAt(events, picked[k], loaded[k]);
    }
  }

  // ------------------------------------------------- a continued run's seed

  predicate HeldLater(carried: seq<LoadedSkill>, at: nat)
    requires at < |carried|
  {
    exists j | at < j < |carried| :: carried[j].name == carried[at].name
  }

  /** What happens to one carried entry: `Record` it as loaded, `Hold` it
      unrecorded because a frozen skill is missing, or `Drop` it. */
  datatype Fate = Record | Hold | Drop

  function FateOf(carried: seq<LoadedSkill>, at: nat, granted: map<string, Granted>, missing: set<string>): Fate
    requires at < |carried|
  {
    var name := carried[at].name;
    if HeldLater(carried, at) then Drop
    else if name in granted then (if granted[name].preload then Drop else Record)
    else if name in missing then Hold
    else Drop
  }

  /** The events that seeding the first `n` carried entries writes. */
  function SeedEvents(carried: seq<LoadedSkill>, n: nat, granted: map<string, Granted>,
                      missing: set<string>): seq<Event>
    requires n <= |carried|
  {
    if n == 0 then []
    else
      SeedEvents(carried, n - 1, granted, missing) +
      (match FateOf(carried, n - 1, granted, missing)
       case Record => [SkillLoad(carried[n - 1].name, carried[n - 1].contentHash, ViaContinuation)]
       case Hold => []
       case Drop =>
         if HeldLater(carried, n - 1) || carried[n - 1].name in granted then [] else [Notice("skill_missing")])
  }

  /** The loaded set that seeding the first `n` carried entries leaves. */
  function SeededSet(carried: seq<LoadedSkill>, n: nat, granted: map<string, Granted>,
                     missing: set<string>): seq<LoadedSkill>
    requires n <= |carried|
  {
    if n == 0 then []
    else SeededSet(carried, n - 1, granted, missing) +
         (if FateOf(carried, n - 1, granted, missing) == Drop then [] else [carried[n - 1]])
  }

  /** Names carried twice are seeded once, at their later entry. */
  lemma {:induction false} SeededSetIsDistinct(carried: seq<LoadedSkill>, n: nat, granted: map<string, Granted>,
                                               missing: set<string>)
    requires n <= |carried|
    ensures forall l | l in SeededSet(carried, n, granted, missing) ::
              exists i | 0 <= i < n :: carried[i] == l && FateOf(carried, i, granted, missing) != Drop
    ensures Distinct(Names(SeededSet(carried, n, granted, missing)))
  {
    if n > 0 {
      SeededSetIsDistinct(carried, n - 1, granted, missing);
      var before, after := SeededSet(carried, n - 1, granted, missing), SeededSet(carried, n, granted, missing);
      forall i, j | 0 <= i < j < |after| ensures Names(after)[i] != Names(after)[j] {
        if j < |before| {
          assert Names(before)[i] != Names(before)[j];
        } else {
          assert before[i] in before;
          var k :| 0 <= k < n - 1 && carried[k] == before[i] && FateOf(carried, k, granted, missing) != Drop;
          assert !HeldLater(carried, k);
        }
      }
    }
  }

  /** An entry that is seeded: none later has its name, and the skill is granted
      and not preloaded, or not granted and one that is only missing. */
  predicate IsSeeded(carried: seq<LoadedSkill>, i: nat, granted: map<string, Granted>, missing: set<string>)
    requires i < |carried|
  {
    var name := carried[i].name;
    && (forall j | i < j < |carried| :: carried[j].name != name)
    && (if name in granted then !granted[name].preload else name in missing)
  }

  /** What the seeded set is: those entries, in their order. */
  lemma {:induction false} SeededSetMeaning(carried: seq<LoadedSkill>, n: nat, granted: map<string, Granted>,
                                            missing: set<string>) returns (picked: seq<nat>)
    requires n <= |carried|
    ensures Places(picked, n) && |SeededSet(carried, n, granted, missing)| == |picked|
    ensures forall k | 0 <= k < |picked| :: SeededSet(carried, n, granted, missing)[k] == carried[picked[k]]
    ensures forall i | 0 <= i < n :: i in picked <==> IsSeeded(carried, i, granted, missing)
  {
    picked := [];
    if n > 0 {
      picked := SeededSetMeaning(carried, n - 1, granted, missing);
      assert FateOf(carried, n - 1, granted, missing) != Drop <==> IsSeeded(carried, n - 1, granted, missing);
      if IsSeeded(carried, n - 1, granted, missing) {
        picked := picked + [n - 1];
      }
    }
  }

  /** The log of the seeding rebuilds the seeded set exactly when no entry is
      held back for a missing frozen skill. */
  lemma SeedIsRecordedExactly(carried: seq<LoadedSkill>, granted: map<string, Granted>, missing: set<string>)
    ensures LoadedSkills(SeedEvents(carried, |carried|, granted, missing)) ==
            SeededSet(carried, |carried|, granted, missing) <==>
            forall i | 0 <= i < |carried| :: FateOf(carried, i, granted, missing) != Hold
  {
    SeedIsRecorded(carried, |carried|, granted, missing);
    RecordedIsPart(carried, |carried|, granted, missing);
  }

  /** A skill that is only missing is in the set, and the log holds nothing. */
  lemma MissingSkillIsNotRecorded(l: LoadedSkill)
    ensures SeededSet([l], 1, map[], {l.name}) == [l]
    ensures LoadedSkills(SeedEvents([l], 1, map[], {l.name})) == []
  {
    SeedIsRecorded([l], 1, map[], {l.name});
    assert FateOf([l], 0, map[], {l.name}) == Hold;
  }

  lemma {:induction false} SeedIsRecorded(carried: seq<LoadedSkill>, n: nat, granted: map<string, Granted>,
                                          missing: set<string>)
    requires n <= |carried|
    ensures LoadedSkills(SeedEvents(carried, n, granted, missing)) == Recorded(carried, n, granted, missing)
  {
    if n > 0 {
      SeedIsRecorded(carried, n - 1, granted, missing);
      var ev := SeedEvents(carried, n - 1, granted, missing);
      var all := SeedEvents(carried, n, granted, missing);
      match FateOf(carried, n - 1, granted, missing) {
        case Record =>
          NextIsNew(carried, n - 1, granted, missing);
          WithoutAbsent(LoadedSkills(ev), carried[n - 1].name);
          assert DropLast(all) == ev;
        case Hold => assert all == ev;
        case Drop => assert all == ev || DropLast(all) == ev;
      }
    }
  }

  /** The carried entries that seeding records. */
  function Recorded(carried: seq<LoadedSkill>, n: nat, granted: map<string, Granted>,
                    missing: set<string>): seq<LoadedSkill>
    requires n <= |carried|
  {
    if n == 0 then []
    else Recorded(carried, n - 1, granted, missing) +
         (if FateOf(carried, n - 1, granted, missing) == Record then [carried[n - 1]] else [])
  }

  lemma {:induction false} RecordedIsPart(carried: seq<LoadedSkill>, n: nat, granted: map<string, Granted>,
                                          missing: set<string>)
    requires n <= |carried|
    ensures |Recorded(carried, n, granted, missing)| <= |SeededSet(carried, n, granted, missing)|
    ensures Recorded(carried, n, granted, missing) == SeededSet(carried, n, granted, missing) <==>
            forall i | 0 <= i < n :: FateOf(carried, i, granted, missing) != Hold
  {
    if n > 0 {
      RecordedIsPart(carried, n - 1, granted, missing);
      var r, s := Recorded(carried, n - 1, granted, missing), SeededSet(carried, n - 1, granted, missing);
      var last := [carried[n - 1]];
      assert DropLast(r + last) == r && DropLast(s + last) == s;
      match FateOf(carried, n - 1, granted, missing) {
        case Record => assert r + last == s + last <==> r == s;
        case Hold => assert |r| < |s + last|;
        case Drop => assert r + [] == r && s + [] == s;
      }
    }
  }

  lemma {:induction false} RecordedNames(carried: seq<LoadedSkill>, n: nat, granted: map<string, Granted>,
                                         missing: set<string>)
    requires n <= |carried|
    ensures forall l | l in Recorded(carried, n, granted, missing) ::
              exists i | 0 <= i < n :: carried[i] == l && !HeldLater(carried, i)
  {
    if n > 0 {
      RecordedNames(carried, n - 1, granted, missing);
      forall l | l in Recorded(carried, n, granted, missing)
        ensures exists i | 0 <= i < n :: carried[i] == l && !HeldLater(carried, i) {
        if l in Recorded(carried, n - 1, granted, missing) {
          var i :| 0 <= i < n - 1 && carried[i] == l && !HeldLater(carried, i);
        } else {
          assert carried[n - 1] == l && !HeldLater(carried, n - 1);
        }
      }
    }
  }

  lemma NextIsNew(carried: seq<LoadedSkill>, n: nat, granted: map<string, Granted>, missing: set<string>)
    requires n < |carried|
    ensures forall l | l in Recorded(carried, n, granted, missing) :: l.name != carried[n].name
  {
    RecordedNames(carried, n, granted, missing);
    forall l | l in Recorded(carried, n, granted, missing) ensures l.name != carried[n].name {
      var i :| 0 <= i < n && carried[i] == l && !HeldLater(carried, i);
    }
  }

  // ------------------------------------------------------------- re-attaching

  datatype Reattachment = Reattachment(
    block: string,
    reattached: seq<LoadedSkill>,
    changed: seq<string>,
    missing: seq<string>,
    omitted: seq<string>,
    loaded: seq<LoadedSkill>)

  /** The positions, ascending, of the entries among the first `n` that are put
      back when `used` bytes are taken already: most recent first, while their
      bodies fit. */
  function Chosen(loaded: seq<LoadedSkill>, disk: map<string, Installed>, cap: nat, n: nat, used: nat): seq<nat>
    requires n <= |loaded|
  {
    if n == 0 then []
    else
      var name := loaded[n - 1].name;
      if name !in disk || used + |disk[name].body| > cap then Chosen(loaded, disk, cap, n - 1, used)
      else Chosen(loaded, disk, cap, n - 1, used + |disk[name].body|) + [n - 1]
  }

  /** The entries at `positions`, at their version on disk. */
  function Fresh(loaded: seq<LoadedSkill>, disk: map<string, Installed>, positions: seq<nat>): seq<LoadedSkill>
    requires forall p | p in positions :: p < |loaded| && loaded[p].name in disk
  {
    seq(|positions|, i requires 0 <= i < |positions| =>
      assert positions[i] in positions;
      LoadedSkill(loaded[positions[i]].name, disk[loaded[positions[i]].name].contentHash))
  }

  /** `loaded` with the entries of `again` moved to the end, in order. */
  function MovedToEnd(loaded: seq<LoadedSkill>, again: seq<LoadedSkill>): seq<LoadedSkill> {
    if again == [] then loaded else MoveToEnd(MovedToEnd(loaded, DropLast(again)), Last(again))
  }

  /** The entries whose name is in no entry of `again`. */
  function Others(loaded: seq<LoadedSkill>, again: seq<LoadedSkill>): seq<LoadedSkill> {
    if loaded == [] then []
    else Others(DropLast(loaded), again) + (if Last(loaded).name in Names(again) then [] else [Last(loaded)])
  }

  /** What a re-attach of `loaded` from `disk` is. */
  ghost predicate PutsBack(r: Reattachment, loaded: seq<LoadedSkill>, disk: map<string, Installed>, cap: nat) {
    var chosen := Chosen(loaded, disk, cap, |loaded|, 0);
    && (forall p | p in chosen :: p < |loaded| && loaded[p].name in disk)
    && r.reattached == Fresh(loaded, disk, chosen)
    && r.loaded == Others(loaded, r.reattached) + r.reattached
    && StartsWith(r.block, REATTACH_MARKER)
    && (forall p | p in chosen :: Within(r.block, loaded[p].name) && Within(r.block, disk[loaded[p].name].body))
    && (forall i | 0 <= i < |loaded| :: loaded[i].name in r.missing <==> loaded[i].name !in disk)
    && (forall i | 0 <= i < |loaded| && loaded[i].name in disk :: loaded[i].name in r.omitted <==> i !in chosen)
  }

  /** `part` occurs in `s`. */
  ghost predicate Within(s: string, part: string) {
    exists k: nat :: StandsHere(s, part, k)
  }

  lemma {:induction false} ChosenMeaning(loaded: seq<LoadedSkill>, disk: map<string, Installed>, cap: nat, n: nat,
                                         used: nat)
    requires n <= |loaded|
    ensures forall p | p in Chosen(loaded, disk, cap, n, used) :: p < n && loaded[p].name in disk
    ensures forall i, j | 0 <= i < j < |Chosen(loaded, disk, cap, n, used)| ::
              Chosen(loaded, disk, cap, n, used)[i] < Chosen(loaded, disk, cap, n, used)[j]
  {
    if n > 0 {
      var name := loaded[n - 1].name;
      if name in disk && used + |disk[name].body| <= cap {
        ChosenMeaning(loaded, disk, cap, n - 1, used + |disk[name].body|);
        var rest := Chosen(loaded, disk, cap, n - 1, used + |disk[name].body|);
        assert forall i | 0 <= i < |rest| :: rest[i] in rest;
      } else {
        ChosenMeaning(loaded, disk, cap, n - 1, used);
      }
    }
  }

  /** The bodies that are put back fit the cap. */
  lemma {:induction false} ChosenFits(loaded: seq<LoadedSkill>, disk: map<string, Installed>, cap: nat, n: nat,
                                      used: nat)
    requires n <= |loaded| && used <= cap
    ensures used + BodyBytes(loaded, disk, Chosen(loaded, disk, cap, n, used)) <= cap
  {
    if n > 0 {
      var name := loaded[n - 1].name;
      if name in disk && used + |disk[name].body| <= cap {
        var rest := Chosen(loaded, disk, cap, n - 1, used + |disk[name].body|);
        ChosenFits(loaded, disk, cap, n - 1, used + |disk[name].body|);
        assert DropLast(rest + [n - 1]) == rest;
      } else {
        ChosenFits(loaded, disk, cap, n - 1, used);
      }
    }
  }

  /** An entry on disk is left out exactly when its body overflows on top of
      those chosen after it. */
  lemma {:induction false} ChosenExactly(loaded: seq<LoadedSkill>, disk: map<string, Installed>, cap: nat, n: nat,
                                         used: nat, i: nat)
    requires i < n <= |loaded| && loaded[i].name in disk
    ensures var later := After(Chosen(loaded, disk, cap, n, used), i);
            i in Chosen(loaded, disk, cap, n, used) <==>
            used + BodyBytes(loaded, disk, later) + |disk[loaded[i].name].body| <= cap
  {
    hide Chosen, BodyBytes, After;
    var last := n - 1;
    var now := BytesAt(loaded, disk, cap, last, used);
    var rest := Chosen(loaded, disk, cap, last, now);
    ChosenStep(loaded, disk, cap, n, used);
    ChosenMeaning(loaded, disk, cap, last, now);
    if i < last {
      ChosenExactly(loaded, disk, cap, last, now, i);
      if IsPicked(loaded, disk, cap, last, used) {
        AfterSnoc(rest, i, last);
        BodySnoc(loaded, disk, After(rest, i), last);
      }
    } else {
      NoneAfter(Chosen(loaded, disk, cap, n, used), i);
      NoBody(loaded, disk);
    }
  }

  predicate IsPicked(loaded: seq<LoadedSkill>, disk: map<string, Installed>, cap: nat, at: nat, used: nat)
    requires at < |loaded|
  {
    loaded[at].name in disk && used + |disk[loaded[at].name].body| <= cap
  }

  function BytesAt(loaded: seq<LoadedSkill>, disk: map<string, Installed>, cap: nat, at: nat, used: nat): nat
    requires at < |loaded|
  {
    if IsPicked(loaded, disk, cap, at, used) then used + |disk[loaded[at].name].body| else used
  }

  lemma ChosenStep(loaded: seq<LoadedSkill>, disk: map<string, Installed>, cap: nat, n: nat, used: nat)
    requires 0 < n <= |loaded|
    ensures var rest := Chosen(loaded, disk, cap, n - 1, BytesAt(loaded, disk, cap, n - 1, used));
            Chosen(loaded, disk, cap, n, used) ==
            if IsPicked(loaded, disk, cap, n - 1, used) then rest + [n - 1] else rest
  {
  }

  lemma NoBody(loaded: seq<LoadedSkill>, disk: map<string, Installed>)
    ensures BodyBytes(loaded, disk, []) == 0
  {
  }

  lemma BodySnoc(loaded: seq<LoadedSkill>, disk: map<string, Installed>, positions: seq<nat>, p: nat)
    requires p < |loaded| && loaded[p].name in disk
    ensures BodyBytes(loaded, disk, positions + [p]) ==
            BodyBytes(loaded, disk, positions) + |disk[loaded[p].name].body|
  {
    assert DropLast(positions + [p]) == positions;
  }

  /** The positions behind `i`. */
  function After(positions: seq<nat>, i: nat): seq<nat> {
    if positions == [] then []
    else After(DropLast(positions), i) + (if Last(positions) > i then [Last(positions)] else [])
  }

  lemma AfterSnoc(positions: seq<nat>, i: nat, p: nat)
    ensures After(positions + [p], i) == if p > i then After(positions, i) + [p] else After(positions, i)
  {
    assert DropLast(positions + [p]) == positions && After(positions, i) + [] == After(positions, i);
  }

  lemma {:induction false} NoneAfter(positions: seq<nat>, i: nat)
    requires forall p | p in positions :: p <= i
    ensures After(positions, i) == []
  {
    if positions != [] {
      assert forall p | p in DropLast(positions) :: p in positions;
      assert Last(positions) in positions;
      NoneAfter(DropLast(positions), i);
    }
  }

  /** The bytes that the bodies at `positions` take. */
  function BodyBytes(loaded: seq<LoadedSkill>, disk: map<string, Installed>, positions: seq<nat>): nat {
    if positions == [] then 0
    else BodyBytes(loaded, disk, DropLast(positions)) +
         (if Last(positions) < |loaded| && loaded[Last(positions)].name in disk
          then |disk[loaded[Last(positions)].name].body| else 0)
  }

  function RenderItems(items: seq<(string, string)>): string {
    if items == [] then ""
    else RenderItems(DropLast(items)) + "\n\n## Skill: " + Last(items).0 +
         (if Last(items).1 == "" then "" else "\n\n" + Last(items).1)
  }

  lemma WithinMore(a: string, s: string, b: string, part: string)
    requires Within(s, part)
    ensures Within(a + s + b, part)
  {
    var k: nat :| StandsHere(s, part, k);
    var whole := a + s + b;
    assert whole[|a|..|a| + |s|] == s;
    assert whole[|a| + k..|a| + k + |part|] == s[k..k + |part|];
    assert StandsHere(whole, part, |a| + k);
  }

  /** Each item's name and body stand in the text. */
  lemma {:induction false} ItemsWithin(items: seq<(string, string)>, item: (string, string))
    requires item in items
    ensures Within(RenderItems(items), item.0) && Within(RenderItems(items), item.1)
  {
    hide Within;
    var front, last := RenderItems(DropLast(items)), Last(items);
    var body := if last.1 == "" then "" else "\n\n" + last.1;
    assert RenderItems(items) == front + ("\n\n## Skill: " + last.0 + body) + "" by {
      assert RenderItems(items) == front + "\n\n## Skill: " + last.0 + body;
    }
    if last == item {
      ItemWithin(last);
      WithinMore(front, "\n\n## Skill: " + last.0 + body, "", last.0);
      WithinMore(front, "\n\n## Skill: " + last.0 + body, "", last.1);
    } else {
      assert item in DropLast(items);
      ItemsWithin(DropLast(items), item);
      WithinMore("", front, "\n\n## Skill: " + last.0 + body, item.0);
      WithinMore("", front, "\n\n## Skill: " + last.0 + body, item.1);
      assert RenderItems(items) == "" + front + ("\n\n## Skill: " + last.0 + body);
    }
  }

  lemma ItemWithin(item: (string, string))
    ensures var body := if item.1 == "" then "" else "\n\n" + item.1;
            var text := "\n\n## Skill: " + item.0 + body;
            Within(text, item.0) && Within(text, item.1)
  {
    var body := if item.1 == "" then "" else "\n\n" + item.1;
    var head := "\n\n## Skill: ";
    var text := head + item.0 + body;
    assert StandsHere(text, item.0, |head|);
    assert StandsHere(text, item.1, |text| - |item.1|);
  }

  /** The text block that puts skills back. What it opens with is what a later
      compaction knows it by. */
  function RenderReattach(items: seq<(string, string)>, omitted: seq<string>, missing: seq<string>): string {
    REATTACH_MARKER + "\n" + RenderItems(items) +
    (if omitted == [] then "" else "\nNot re-attached for space: " + Join(omitted, ", ")) +
    (if missing == [] then "" else "\nNo longer installed: " + Join(missing, ", ")) +
    "\n</skills-in-use>"
  }

  lemma BlockHolds(items: seq<(string, string)>, omitted: seq<string>, missing: seq<string>)
    ensures var block := RenderReattach(items, omitted, missing);
            StartsWith(block, REATTACH_MARKER) &&
            forall item | item in items :: Within(block, item.0) && Within(block, item.1)
  {
    hide Within, RenderItems, Join;
    var head, text := REATTACH_MARKER + "\n", RenderItems(items);
    var rest := (if omitted == [] then "" else "\nNot re-attached for space: " + Join(omitted, ", ")) +
      (if missing == [] then "" else "\nNo longer installed: " + Join(missing, ", ")) + "\n</skills-in-use>";
    assert RenderReattach(items, omitted, missing) == head + text + rest;
    forall item | item in items
      ensures Within(head + text + rest, item.0) && Within(head + text + rest, item.1) {
      ItemsWithin(items, item);
      WithinMore(head, text, rest, item.0);
      WithinMore(head, text, rest, item.1);
    }
  }

  /** The names whose version is not the one that was loaded. */
  function ChangedNames(loaded: seq<LoadedSkill>, again: seq<LoadedSkill>): seq<string> {
    if again == [] then []
    else ChangedNames(loaded, DropLast(again)) + (if Last(again) in loaded then [] else [Last(again).name])
  }

  /** A skill that is put back is reported as changed exactly when its version on
      disk is not the one that was loaded. */
  lemma {:induction false} ChangedMeaning(loaded: seq<LoadedSkill>, again: seq<LoadedSkill>, name: string)
    ensures name in ChangedNames(loaded, again) <==> exists l | l in again :: l.name == name && l !in loaded
  {
    if again != [] {
      ChangedMeaning(loaded, DropLast(again), name);
      assert again == DropLast(again) + [Last(again)];
    }
  }

  function Reversed<T>(s: seq<T>): seq<T> {
    if s == [] then [] else [Last(s)] + Reversed(DropLast(s))
  }

  lemma {:induction false} ReversedSnoc<T>(s: seq<T>, x: T)
    ensures Reversed(s + [x]) == [x] + Reversed(s)
  {
    assert DropLast(s + [x]) == s;
  }

  lemma {:induction false} ReversedMembers<T>(s: seq<T>)
    ensures forall x :: x in Reversed(s) <==> x in s
  {
    if s != [] {
      ReversedMembers(DropLast(s));
      assert s == DropLast(s) + [Last(s)];
    }
  }

  /** The walk from the most recent entry down: which entries fit, in the order
      they were found, and which are left out or gone. */
  method PickFitting(loaded: seq<LoadedSkill>, disk: map<string, Installed>, cap: nat)
    returns (found: seq<nat>, omitted: seq<string>, missing: seq<string>)
    ensures Reversed(found) == Chosen(loaded, disk, cap, |loaded|, 0)
    ensures forall m | m in missing :: m !in disk
    ensures forall i | 0 <= i < |loaded| ::
              if loaded[i].name !in disk then loaded[i].name in missing else i in found || loaded[i].name in omitted
    ensures forall m | m in omitted :: exists i | 0 <= i < |loaded| :: loaded[i].name == m && i !in found
  {
    found, omitted, missing := [], [], [];
    var used: nat, at: nat := 0, |loaded|;
    while at > 0
      invariant at <= |loaded|
      invariant Chosen(loaded, disk, cap, |loaded|, 0) == Chosen(loaded, disk, cap, at, used) + Reversed(found)
      invariant forall m | m in missing :: m !in disk
      invariant forall p | p in found :: at <= p
      invariant forall m | m in omitted :: exists i | at <= i < |loaded| :: loaded[i].name == m && i !in found
      invariant forall i | at <= i < |loaded| ::
                  if loaded[i].name !in disk then loaded[i].name in missing else i in found || loaded[i].name in omitted
    {
      at := at - 1;
      var name := loaded[at].name;
      if name !in disk {
        missing := missing + [name];
      } else if used + |disk[name].body| > cap {
        omitted := omitted + [name];
      } else {
        ReversedSnoc(found, at);
        used := used + |disk[name].body|;
        found := found + [at];
      }
    }
  }

  /** With distinct names, what is left out is exactly what was not picked. */
  lemma OmittedExactly(loaded: seq<LoadedSkill>, disk: map<string, Installed>, found: seq<nat>, omitted: seq<string>)
    requires Distinct(Names(loaded))
    requires forall m | m in omitted :: exists i | 0 <= i < |loaded| :: loaded[i].name == m && i !in found
    requires forall i | 0 <= i < |loaded| && loaded[i].name in disk :: i in found || loaded[i].name in omitted
    ensures forall i | 0 <= i < |loaded| && loaded[i].name in disk :: loaded[i].name in omitted <==> i !in found
  {
    forall i | 0 <= i < |loaded| && loaded[i].name in disk && loaded[i].name in omitted
      ensures i !in found {
      var j :| 0 <= j < |loaded| && loaded[j].name == loaded[i].name && j !in found;
      assert Names(loaded)[i] == Names(loaded)[j];
    }
  }

  /** Put loaded skills back: pick what fits, most recent first, then sort the
      picks by position (they were found in descending order). */
  method ReattachBlock(loaded: seq<LoadedSkill>, disk: map<string, Installed>, cap: nat)
    returns (r: Option<Reattachment>)
    requires Distinct(Names(loaded))
    ensures r.None? <==> loaded == []
    ensures r.Some? ==> PutsBack(r.value, loaded, disk, cap)
  {
    if loaded == [] {
      return None;
    }
    var found, omitted, missing := PickFitting(loaded, disk, cap);
    var chosen := Reversed(found);
    ReversedMembers(found);
    ChosenMeaning(loaded, disk, cap, |loaded|, 0);
    var reattached := Fresh(loaded, disk, chosen);
    var mostRecentFirst := Reversed(chosen);
    ReversedMembers(chosen);
    var items := seq(|mostRecentFirst|, i requires 0 <= i < |mostRecentFirst| =>
      assert mostRecentFirst[i] in mostRecentFirst;
      var name := loaded[mostRecentFirst[i]].name; (name, disk[name].body));
    forall p | p in chosen ensures (loaded[p].name, disk[loaded[p].name].body) in items {
      var i :| 0 <= i < |mostRecentFirst| && mostRecentFirst[i] == p;
      assert items[i] == (loaded[p].name, disk[loaded[p].name].body);
    }
    BlockHolds(items, omitted, missing);
    OmittedExactly(loaded, disk, found, omitted);
    r := Some(Reattachment(
      RenderReattach(items, omitted, missing), reattached, ChangedNames(loaded, reattached), missing, omitted,
      Others(loaded, reattached) + reattached));
  }

  /** The events that record a re-attach. */
  function ReattachEvents(r: Reattachment): seq<Event> {
    LoadEvents(r.reattached, r.changed) +
    seq(|r.missing|, _ => Notice("skill_missing")) +
    (if r.omitted == [] then [] else [Notice("skill_reattach_truncated")])
  }

  function LoadEvents(again: seq<LoadedSkill>, changed: seq<string>): seq<Event> {
    if again == [] then []
    else LoadEvents(DropLast(again), changed) +
         (if Last(again).name in changed then [Notice("skill_changed")] else []) +
         [SkillLoad(Last(again).name, Last(again).contentHash, ViaReattach)]
  }

  lemma {:induction false} NoticesLoadNothing(loaded: seq<LoadedSkill>, events: seq<Event>)
    requires forall e | e in events :: !e.SkillLoad?
    ensures NoteAll(loaded, events) == loaded
  {
    if events != [] {
      assert forall e | e in DropLast(events) :: e in events;
      assert Last(events) in events;
      NoticesLoadNothing(loaded, DropLast(events));
    }
  }

  lemma {:induction false} LoadEventsMoveToEnd(loaded: seq<LoadedSkill>, again: seq<LoadedSkill>, changed: seq<string>)
    ensures NoteAll(loaded, LoadEvents(again, changed)) == MovedToEnd(loaded, again)
  {
    if again != [] {
      var front, last := DropLast(again), Last(again);
      LoadEventsMoveToEnd(loaded, front, changed);
      var notice: seq<Event> := if last.name in changed then [Notice("skill_changed")] else [];
      NoteAllConcat(loaded, LoadEvents(front, changed), notice);
      NoticesLoadNothing(MovedToEnd(loaded, front), notice);
      var load := SkillLoad(last.name, last.contentHash, ViaReattach);
      assert DropLast(LoadEvents(again, changed)) == LoadEvents(front, changed) + notice;
    }
  }

  lemma {:induction false} WithoutConcat(a: seq<LoadedSkill>, b: seq<LoadedSkill>, name: string)
    ensures Without(a + b, name) == Without(a, name) + Without(b, name)
  {
    if b == [] {
      assert a + b == a;
    } else {
      var front, last := DropLast(b), Last(b);
      WithoutConcat(a, front, name);
      assert DropLast(a + b) == a + front && Last(a + b) == last;
      assert Without(a + b, name) == Without(a + front, name) + (if last.name == name then [] else [last]);
    }
  }

  lemma {:induction false} OthersSnoc(loaded: seq<LoadedSkill>, again: seq<LoadedSkill>, l: LoadedSkill)
    ensures Others(loaded, again + [l]) == Without(Others(loaded, again), l.name)
  {
    if loaded != [] {
      OthersSnoc(DropLast(loaded), again, l);
      var more: seq<LoadedSkill> := if Last(loaded).name in Names(again) then [] else [Last(loaded)];
      WithoutConcat(Others(DropLast(loaded), again), more, l.name);
      assert Names(again + [l]) == Names(again) + [l.name];
      if more != [] {
        assert DropLast(more) == [];
      }
    }
  }

  lemma {:induction false} OthersOfNone(loaded: seq<LoadedSkill>)
    ensures Others(loaded, []) == loaded
  {
    if loaded != [] {
      OthersOfNone(DropLast(loaded));
    }
  }

  lemma LastNameIsNew(again: seq<LoadedSkill>)
    requires again != [] && Distinct(Names(again))
    ensures forall l | l in DropLast(again) :: l.name != Last(again).name
    ensures Distinct(Names(DropLast(again)))
  {
    var front := DropLast(again);
    DistinctParts(Names(again));
    assert Names(front) == DropLast(Names(again));
    forall l | l in front ensures l.name != Last(again).name {
      var i :| 0 <= i < |front| && front[i] == l;
      assert Names(front)[i] != Last(Names(again));
    }
  }

  /** Moving distinct entries to the end one by one leaves the others in their
      order, then the moved ones in theirs. */
  lemma {:induction false} MovedToEndIsOthersThenFresh(loaded: seq<LoadedSkill>, again: seq<LoadedSkill>)
    requires Distinct(Names(again))
    ensures MovedToEnd(loaded, again) == Others(loaded, again) + again
  {
    if again == [] {
      OthersOfNone(loaded);
    } else {
      var front, last := DropLast(again), Last(again);
      LastNameIsNew(again);
      MovedToEndIsOthersThenFresh(loaded, front);
      MoveOneMore(loaded, front, last);
      assert again == front + [last];
    }
  }

  lemma MoveOneMore(loaded: seq<LoadedSkill>, front: seq<LoadedSkill>, last: LoadedSkill)
    requires forall l | l in front :: l.name != last.name
    ensures MoveToEnd(Others(loaded, front) + front, last) == Others(loaded, front + [last]) + (front + [last])
  {
    hide Without, Others;
    WithoutConcat(Others(loaded, front), front, last.name);
    WithoutAbsent(front, last.name);
    OthersSnoc(loaded, front, last);
    assert Others(loaded, front + [last]) + front + [last] == Others(loaded, front + [last]) + (front + [last]);
  }

  lemma FreshIsDistinct(loaded: seq<LoadedSkill>, disk: map<string, Installed>, cap: nat)
    requires Distinct(Names(loaded))
    ensures var chosen := Chosen(loaded, disk, cap, |loaded|, 0);
            && (forall p | p in chosen :: p < |loaded| && loaded[p].name in disk)
            && Distinct(Names(Fresh(loaded, disk, chosen)))
  {
    ChosenMeaning(loaded, disk, cap, |loaded|, 0);
    var chosen := Chosen(loaded, disk, cap, |loaded|, 0);
    var again := Fresh(loaded, disk, chosen);
    forall i, j | 0 <= i < j < |again| ensures Names(again)[i] != Names(again)[j] {
      assert Names(loaded)[chosen[i]] != Names(loaded)[chosen[j]];
    }
  }

  /** A re-attach's events fold the loaded set into its `loaded` field. */
  lemma ReattachIsRecorded(loaded: seq<LoadedSkill>, r: Reattachment)
    requires Distinct(Names(r.reattached))
    requires r.loaded == Others(loaded, r.reattached) + r.reattached
    ensures NoteAll(loaded, ReattachEvents(r)) == r.loaded
  {
    LoadEventsMoveToEnd(loaded, r.reattached, r.changed);
    MovedToEndIsOthersThenFresh(loaded, r.reattached);
    var notices: seq<Event> := seq(|r.missing|, _ => Notice("skill_missing")) +
      (if r.omitted == [] then [] else [Notice("skill_reattach_truncated")]);
    assert ReattachEvents(r) == LoadEvents(r.reattached, r.changed) + notices;
    NoteAllConcat(loaded, LoadEvents(r.reattached, r.changed), notices);
    NoticesLoadNothing(r.loaded, notices);
  }
}
