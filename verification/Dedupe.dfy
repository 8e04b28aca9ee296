/** Reporting each app or plugin use once per turn, with a bounded memory that is emptied when full.
    `analytics/src/client.rs` */
module Dedupe {
  import opened Common

  const MAX_KEYS := 4096

  /** The turn and the app or plugin. */
  type Key = (string, string)

  // ----------------------------------------------- what is to be reported

  /** The uses reported since the memory was last emptied. */
  function Remembered(reported: seq<Key>): seq<Key> { reported[|reported| - |reported| % MAX_KEYS..] }

  /** Which of a series of uses are reported: those not among the remembered ones. */
  function Reported(uses: seq<Key>): seq<Key>
  {
    if uses == [] then []
    else
      var before := Reported(Front(uses));
      if Last(uses) in Remembered(before) then before else before + [Last(uses)]
  }

  /** Within a block of `MAX_KEYS` reports no use is repeated. */
  ghost predicate BlocksDiffer(reported: seq<Key>)
  {
    forall i, j :: 0 <= i < j < |reported| && i / MAX_KEYS == j / MAX_KEYS ==> reported[i] != reported[j]
  }

  lemma {:induction false} ReportedBlocksDiffer(uses: seq<Key>)
    ensures BlocksDiffer(Reported(uses))
  {
    if uses != [] {
      ReportedBlocksDiffer(Front(uses));
      if Last(uses) !in Remembered(Reported(Front(uses))) { OneMoreDiffers(Reported(Front(uses)), Last(uses)); }
    }
  }

  lemma OneMoreDiffers(before: seq<Key>, key: Key)
    requires BlocksDiffer(before) && key !in Remembered(before)
    ensures BlocksDiffer(before + [key])
  {
    var after, n := before + [key], |before|;
    forall i, j | 0 <= i < j < |after| && i / MAX_KEYS == j / MAX_KEYS ensures after[i] != after[j] {
      if j == n {
        SameBlock(i, n);
        assert Remembered(before)[i - (n - n % MAX_KEYS)] == before[i];
      }
    }
  }

  lemma SameBlock(i: nat, n: nat)
    requires i < n && i / MAX_KEYS == n / MAX_KEYS
    ensures i >= n - n % MAX_KEYS
  {
  }

  function Is(key: Key): Key -> bool { k => k == key }

  /** One use is reported at most once per block. */
  lemma {:induction false} OncePerBlock(reported: seq<Key>, key: Key)
    requires BlocksDiffer(reported)
    ensures Count(reported, Is(key)) <= (|reported| + MAX_KEYS - 1) / MAX_KEYS
    ensures key !in Remembered(reported) ==> Count(reported, Is(key)) <= |reported| / MAX_KEYS
  {
    if reported != [] {
      var front, n := Front(reported), |reported| - 1;
      OncePerBlock(front, key);
      LastOfBlock(reported);
      if Last(reported) == key {
        assert key !in Remembered(front);
      }
    }
  }

  lemma LastOfBlock(reported: seq<Key>)
    requires reported != [] && BlocksDiffer(reported)
    ensures BlocksDiffer(Front(reported)) && Last(reported) !in Remembered(Front(reported))
    ensures |reported| % MAX_KEYS != 0 ==> Remembered(reported) == Remembered(Front(reported)) + [Last(reported)]
  {
    var front, n := Front(reported), |reported| - 1;
    var m := n - n % MAX_KEYS;
    forall k | 0 <= k < |Remembered(front)| ensures Remembered(front)[k] != Last(reported) {
      assert Remembered(front)[k] == reported[m + k];
      assert (m + k) / MAX_KEYS == n / MAX_KEYS;
    }
  }

  lemma {:induction false} UsedIsReported(uses: seq<Key>, key: Key)
    ensures key in uses <==> key in Reported(uses)
  {
    if uses != [] {
      var front, last := Front(uses), Last(uses);
      UsedIsReported(front, key);
      UsedIsReported(front, last);
      assert uses == front + [last];
      var before := Reported(front);
      hide Reported;
      assert last in Remembered(before) ==> last in before by { RememberedIsReported(before, last); }
      assert Reported(uses) == if last in Remembered(before) then before
          else before + [last] by { ReportedOneMore(front, last); }
    }
  }

  lemma RememberedIsReported(reported: seq<Key>, key: Key)
    ensures key in Remembered(reported) ==> key in reported
  {
  }

  /** Everything used is reported at least once, nothing unused is, and one use is reported again at most once for
      every `MAX_KEYS` reports. */
  lemma EveryUseIsReported(uses: seq<Key>, key: Key)
    ensures key in uses <==> key in Reported(uses)
    ensures Count(Reported(uses), Is(key)) <= (|Reported(uses)| + MAX_KEYS - 1) / MAX_KEYS
  {
    hide Reported, Remembered;
    UsedIsReported(uses, key);
    ReportedBlocksDiffer(uses);
    OncePerBlock(Reported(uses), key);
  }

  // ------------------------------------------------------ the source's form

  function Members(keys: seq<Key>): set<Key> { set k | k in keys }

  /** A set emptied `clears` times holds the reports made since, a full one perhaps about to be emptied again. */
  ghost predicate Holds(emitted: set<Key>, clears: nat, reported: seq<Key>)
  {
    && |emitted| <= MAX_KEYS
    && |reported| == MAX_KEYS * clears + |emitted|
    && emitted == Members(reported[|reported| - |emitted|..])
  }

  /** Emptied when full and then asked, the set answers whether a key is remembered. */
  lemma EmptiedHolds(emitted: set<Key>, clears: nat, reported: seq<Key>)
    requires Holds(emitted, clears, reported)
    ensures var full := |emitted| >= MAX_KEYS; var kept := if full then {} else emitted;
      && Holds(kept, if full then clears + 1 else clears, reported) && |kept| == |reported| % MAX_KEYS
      && kept == Members(Remembered(reported))
  {
    if |emitted| >= MAX_KEYS {
      assert |reported| % MAX_KEYS == 0;
    } else {
      assert |reported| % MAX_KEYS == |emitted|;
    }
  }

  lemma InsertHolds(kept: set<Key>, clears: nat, reported: seq<Key>, key: Key)
    requires Holds(kept, clears, reported) && |kept| < MAX_KEYS && key !in kept
    ensures Holds(kept + {key}, clears, reported + [key])
  {
    var from := |reported| - |kept|;
    assert |kept + {key}| == |kept| + 1;
    assert (reported + [key])[from..] == reported[from..] + [key];
  }

  lemma ReportedOneMore(uses: seq<Key>, key: Key)
    ensures Reported(uses + [key]) == if key in Remembered(Reported(uses)) then Reported(uses)
        else Reported(uses) + [key]
  {
    assert Front(uses + [key]) == uses && Last(uses + [key]) == key;
  }

  /** Asking about one more use. */
  lemma AskOnce(emitted: set<Key>, clears: nat, uses: seq<Key>, key: Key)
    requires Holds(emitted, clears, Reported(uses))
    ensures var full := |emitted| >= MAX_KEYS; var kept := if full then {} else emitted;
      && Holds(kept + {key}, if full then clears + 1 else clears, Reported(uses + [key]))
      && (key !in kept <==> Reported(uses + [key]) != Reported(uses))
  {
    hide Reported, Remembered, Holds;
    EmptiedHolds(emitted, clears, Reported(uses));
    ReportedOneMore(uses, key);
    var kept := if |emitted| >= MAX_KEYS then {} else emitted;
    assert key in kept <==> key in Remembered(Reported(uses));
    if key in kept {
      assert kept + {key} == kept;
    } else {
      InsertHolds(kept, if |emitted| >= MAX_KEYS then clears + 1 else clears, Reported(uses), key);
    }
  }

  /** What both memories do with a use: empty the set when it is full, and insert. */
  method Insert(emitted: set<Key>, key: Key, ghost clears: nat, ghost uses: seq<Key>)
    returns (kept: set<Key>, report: bool, ghost cleared: nat)
    requires Holds(emitted, clears, Reported(uses))
    ensures Holds(kept, cleared, Reported(uses + [key])) && (report <==> Reported(uses + [key]) != Reported(uses))
  {
    hide Holds, Reported;
    AskOnce(emitted, clears, uses, key);
    kept, cleared := emitted, clears;
    if |emitted| >= MAX_KEYS { kept, cleared := {}, clears + 1; }
    report := key !in kept;
    kept := kept + {key};
  }

  /** The two memories of the analytics queue; besides, how often each was emptied and what it was asked about. */
  class AnalyticsEventsQueue {
    var appUsedEmittedKeys: set<Key>
    var pluginUsedEmittedKeys: set<Key>
    ghost var appClears: nat
    ghost var pluginClears: nat
    ghost var appUses: seq<Key>
    ghost var pluginUses: seq<Key>

    ghost predicate Valid()
      reads this
    {
      && Holds(appUsedEmittedKeys, appClears, Reported(appUses))
      && Holds(pluginUsedEmittedKeys, pluginClears, Reported(pluginUses))
    }

    constructor ()
      ensures Valid() && appUses == [] && pluginUses == []
    {
      appUsedEmittedKeys, pluginUsedEmittedKeys := {}, {};
      appUses, pluginUses, appClears, pluginClears := [], [], 0, 0;
    }

    /** A use without a connector is always reported and not remembered. */
    method ShouldEnqueueAppUsed(turnId: string, connectorId: Option<string>) returns (report: bool)
      requires Valid()
      modifies this`appUsedEmittedKeys, this`appUses, this`appClears
      ensures Valid()
      ensures connectorId.None? ==> report && appUses == old(appUses) && appUsedEmittedKeys == old(appUsedEmittedKeys)
      ensures connectorId.Some? ==>
        && appUses == old(appUses) + [(turnId, connectorId.value)]
        && (report <==> Reported(appUses) != Reported(old(appUses)))
    {
      if connectorId.None? { return true; }
      var key := (turnId, connectorId.value);
      hide Holds, Reported;
      appUsedEmittedKeys, report, appClears := Insert(appUsedEmittedKeys, key, appClears, appUses);
      appUses := appUses + [key];
    }

    method ShouldEnqueuePluginUsed(turnId: string, pluginId: string) returns (report: bool)
      requires Valid()
      modifies this`pluginUsedEmittedKeys, this`pluginUses, this`pluginClears
      ensures Valid()
      ensures pluginUses == old(pluginUses) + [(turnId, pluginId)]
      ensures report <==> Reported(pluginUses) != Reported(old(pluginUses))
    {
      var key := (turnId, pluginId);
      hide Holds, Reported;
      pluginUsedEmittedKeys, report, pluginClears := Insert(pluginUsedEmittedKeys, key, pluginClears, pluginUses);
      pluginUses := pluginUses + [key];
    }
  }
}
