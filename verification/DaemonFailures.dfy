/** Runs in which the daemon's operations fall short, for every host on which they can: a change of settings that breaks
    off, and a request for remote control that succeeds without having started it. */
module DaemonFailures {
  import opened Common
  import opened DaemonModel
  import opened DaemonSafety
  import opened DaemonResults

  // ------------------------------------------------- one process on its own

  lemma RunMore(w: World, labels: seq<Label>, l: Label)
    ensures Run(w, labels + [l]) == Step(Run(w, labels), l)
  {
    assert Front(labels + [l]) == labels && Last(labels + [l]) == l;
  }

  /** A server whose socket starts to answer at step `late`. */
  function Probe(late: nat, k: nat): Finding { Finding(k >= late, "", "") }

  /** A world in which one process holds the lock. */
  function Solo(h: Host, q: Process): World { World(h, Some(0), map[0 := q]) }

  /** The host and a process alone on it after `n` steps of its own. */
  function Drive(h: Host, q: Process, late: nat, n: nat): Move
  {
    if n == 0 then (h, q) else var m := Drive(h, q, late, n - 1); Advance(m.0, m.1, Probe(late, n - 1))
  }

  function Repeat(late: nat, n: nat): seq<Label>
  {
    if n == 0 then [] else Repeat(late, n - 1) + [Go(0, Probe(late, n - 1))]
  }

  lemma {:induction false} SoloDrives(w: World, labels: seq<Label>, h: Host, q: Process, late: nat, n: nat)
    requires Run(w, labels) == Solo(h, q) && forall k: nat :: k <= n ==> Inside(Drive(h, q, late, k).1.at)
    ensures var m := Drive(h, q, late, n); Run(w, labels + Repeat(late, n)) == Solo(m.0, m.1)
  {
    hide Advance, Run;
    if n == 0 {
      assert labels + [] == labels;
    } else {
      SoloDrives(w, labels, h, q, late, n - 1);
      var m, next, go := Drive(h, q, late, n - 1), Drive(h, q, late, n), Go(0, Probe(late, n - 1));
      RunMore(w, labels + Repeat(late, n - 1), go);
      assert labels + Repeat(late, n - 1) + [go] == labels + Repeat(late, n);
      assert map[0 := m.1][0 := next.1] == map[0 := next.1];
    }
  }

  /** An operation that begins alone is the holder after two labels. */
  lemma SoloBegins(h: Host, op: Op) returns (labels: seq<Label>)
    requires !op.Bootstrap?
    ensures Run(World(h, None, map[]), labels) == Solo(h, Asked(op, h).(at := Loading))
  {
    var w, q := World(h, None, map[]), Asked(op, h);
    RunMore(w, [], Begin(0, op));
    RunMore(w, [Begin(0, op)], Go(0, Probe(0, 0)));
    labels := [Begin(0, op)] + [Go(0, Probe(0, 0))];
    assert [] + [Begin(0, op)] == [Begin(0, op)];
    assert map[][0 := q] == map[0 := q] && map[0 := q][0 := q.(at := Loading)] == map[0 := q.(at := Loading)];
  }

  lemma DriveMore(h: Host, q: Process, late: nat, n: nat, m: Move)
    requires Drive(h, q, late, n) == m
    ensures Drive(h, q, late, n + 1) == Advance(m.0, m.1, Probe(late, n))
  {
  }

  // ----------------------------------------------------------------- steps

  lemma SettingSteps(h: Host, q: Process, b: bool, f: Finding)
    requires Load(h.settings) == Some(b) && q.current.SetRemoteControl?
    ensures Advance(h, q.(at := Loading), f) == (h, q.(at := SetFind(b)))
    ensures Advance(h, q.(at := SetFind(b)), f) == (h, q.(at := SetProbe(b, h.backend.Some?)))
  {
  }

  lemma ChangingSteps(h: Host, q: Process, b: bool, f: Finding)
    requires q.current.SetRemoteControl?
    ensures Advance(h, q.(at := SetProbe(b, true)), f) == (h, q.(at := if b == Target(q) then Ready else SetSave(true)))
    ensures Advance(h, q.(at := SetSave(true)), f) == (h.(settings := Saved(Target(q))), q.(at := SetBinary))
  {
  }

  /** The first half of a request for remote control, when there is no backend and the probe is not answered. */
  lemma UnseenSteps(h: Host, q: Process, b: bool, f: Finding)
    requires q.current == SetRemoteControl(true) && q.thenStart
    ensures var start := q.(current := Start, thenStart := false, at := Loading);
      && (!f.answers ==>
            Advance(h, q.(at := SetProbe(b, false)), f) == (h, if b then start else q.(at := SetSave(false))))
      && Advance(h, q.(at := SetSave(false)), f) == (h.(settings := Saved(true)), start)
      && Advance(h, q.(at := Ready), f) == (h, start)
  {
  }

  lemma StartingSteps(h: Host, q: Process, f: Finding)
    requires Load(h.settings) == Some(true) && q.current.Start? && !q.thenStart
    ensures Advance(h, q.(at := Loading), f) == (h, q.(at := StartProbe(true)))
    ensures Answers(h, f) ==> Advance(h, q.(at := StartProbe(true)), f) == (h, q.(at := Done))
  {
  }

  lemma EnsuringSteps(h: Host, q: Process, f: Finding)
    requires Load(h.settings).Some? && h.updater && q.current.EnsureRemoteControlStarted? && !q.thenStart
    ensures Advance(h, q.(at := Loading), f) == (h, q.(at := EnsureFind))
    ensures Advance(h, q.(at := EnsureFind), f)
        == (h, q.(current := SetRemoteControl(true), thenStart := true, at := Loading))
  {
  }

  // -------------------------------------------------------- a change broken off

  lemma SettingDrives(h: Host, q: Process, b: bool)
    requires Load(h.settings) == Some(b) && h.backend.Some?
    requires q.current.SetRemoteControl? && Target(q) == !b && q.at.Loading?
    ensures forall k: nat :: k <= 4 ==> Inside(Drive(h, q, 0, k).1.at)
    ensures Drive(h, q, 0, 4) == (h.(settings := Saved(!b)), q.(at := SetBinary))
  {
    hide Advance;
    SettingSteps(h, q, b, Probe(0, 0));
    ChangingSteps(h, q, b, Probe(0, 0));
    assert Drive(h, q, 0, 1) == (h, q.(at := SetFind(b)));
    assert Drive(h, q, 0, 2) == (h, q.(at := SetProbe(b, true)));
    assert Drive(h, q, 0, 3) == (h, q.(at := SetSave(true)));
  }

  /** A change of settings that breaks off after saving.  Whatever the consistent host with a running backend, the
      saved setting and the running one then disagree although nothing outside has changed. */
  lemma BreakingOffDisagrees(h: Host) returns (labels: seq<Label>)
    requires h.backend.Some? && Consistent(h)
    ensures var v := Run(World(h, None, map[]), labels);
      v.holder.None? && v.host == h.(settings := Saved(!h.backend.value)) && !Consistent(v.host)
  {
    hide Run, Advance, Drive;
    var w, b := World(h, None, map[]), h.backend.value;
    labels := SoloBegins(h, SetRemoteControl(!b));
    var q := Asked(SetRemoteControl(!b), h).(at := Loading);
    SettingDrives(h, q, b);
    SoloDrives(w, labels, h, q, 0, 4);
    labels := labels + Repeat(0, 4);
    RunMore(w, labels, Break(0));
    labels := labels + [Break(0)];
  }

  // ----------------------------------------------- a request that does nothing

  /** A request for remote control on a bootstrapped host, as far as the probe of its first half. */
  lemma EnsuringFinds(h: Host, q: Process, b: bool, late: nat)
    requires Load(h.settings) == Some(b) && h.updater
    requires q.current.EnsureRemoteControlStarted? && !q.thenStart && q.at.Loading?
    ensures forall k: nat :: k <= 4 ==> Inside(Drive(h, q, late, k).1.at)
    ensures Drive(h, q, late, 4)
         == (h, q.(current := SetRemoteControl(true), thenStart := true, at := SetProbe(b, h.backend.Some?)))
  {
    hide Advance, Probe;
    var setting := q.(current := SetRemoteControl(true), thenStart := true);
    EnsuringSteps(h, q, Probe(late, 0));
    assert Drive(h, q, late, 1) == (h, q.(at := EnsureFind));
    EnsuringSteps(h, q, Probe(late, 1));
    assert Drive(h, q, late, 2) == (h, setting);
    SettingSteps(h, setting, b, Probe(late, 2));
    assert Drive(h, q, late, 3) == (h, setting.(at := SetFind(b)));
    SettingSteps(h, setting, b, Probe(late, 3));
  }

  /** When the socket starts to answer, and how many steps the first half then takes. */
  function Late(h: Host): nat { if h.backend.Some? then 0 else 5 }

  function Half(h: Host): nat { if h.backend.Some? || Load(h.settings) != Some(true) then 6 else 5 }

  lemma EnsuringSetsSeen(h: Host, q: Process)
    requires !Startable(h) && h.backend.Some? && q.current.EnsureRemoteControlStarted? && !q.thenStart && q.at.Loading?
    ensures forall k: nat :: k <= 6 ==> Inside(Drive(h, q, 0, k).1.at)
    ensures Drive(h, q, 0, 6) == (h, q.(current := Start))
  {
    hide Advance, Drive;
    var setting := q.(current := SetRemoteControl(true), thenStart := true);
    EnsuringFinds(h, q, true, 0);
    ChangingSteps(h, setting, true, Probe(0, 4));
    DriveMore(h, q, 0, 4, (h, setting.(at := SetProbe(true, true))));
    UnseenSteps(h, setting, true, Probe(0, 5));
    DriveMore(h, q, 0, 5, (h, setting.(at := Ready)));
  }

  lemma EnsuringSetsUnseen(h: Host, q: Process)
    requires !Startable(h) && h.backend.None? && q.current.EnsureRemoteControlStarted? && !q.thenStart && q.at.Loading?
    ensures forall k: nat :: k <= Half(h) ==> Inside(Drive(h, q, 5, k).1.at)
    ensures Drive(h, q, 5, Half(h)) == (h.(settings := Saved(true)), q.(current := Start))
  {
    hide Advance, Drive;
    var b, setting := Load(h.settings).value, q.(current := SetRemoteControl(true), thenStart := true);
    EnsuringFinds(h, q, b, 5);
    UnseenSteps(h, setting, b, Probe(5, 4));
    DriveMore(h, q, 5, 4, (h, setting.(at := SetProbe(b, false))));
    if !b {
      UnseenSteps(h, setting, b, Probe(5, 5));
      DriveMore(h, q, 5, 5, (h, setting.(at := SetSave(false))));
    }
  }

  /** Where the first half of the request falls short: the setting it finds says on while the backend runs with it
      off, or there is no backend and the server that is there misses the probe.  It is saved, and nothing is
      started. */
  lemma EnsuringSets(h: Host, q: Process)
    requires !Startable(h) && q.current.EnsureRemoteControlStarted? && !q.thenStart && q.at.Loading?
    ensures forall k: nat :: k <= Half(h) ==> Inside(Drive(h, q, Late(h), k).1.at)
    ensures Drive(h, q, Late(h), Half(h)) == (h.(settings := Saved(true)), q.(current := Start))
  {
    hide Drive;
    if h.backend.Some? { EnsuringSetsSeen(h, q); } else { EnsuringSetsUnseen(h, q); }
  }

  /** Then the second half finds a server that answers, and the request has succeeded. */
  lemma EnsuringDrives(h: Host, q: Process)
    requires !Startable(h) && q.current.EnsureRemoteControlStarted? && !q.thenStart && q.at.Loading?
    ensures forall k: nat :: k <= Half(h) + 1 ==> Inside(Drive(h, q, Late(h), k).1.at)
    ensures Drive(h, q, Late(h), Half(h) + 1)
        == (h.(settings := Saved(true)), q.(current := Start, at := StartProbe(true)))
  {
    hide Advance, Drive;
    var saved, starting := h.(settings := Saved(true)), q.(current := Start);
    EnsuringSets(h, q);
    StartingSteps(saved, starting, Probe(Late(h), Half(h)));
    DriveMore(h, q, Late(h), Half(h), (saved, starting));
  }

  /** On every other host some undisturbed run of the request succeeds, leaves the backend as it was, running without
      remote control or not at all, and has only seen to it that the setting is saved. */
  lemma SuccessWithoutResult(h: Host) returns (labels: seq<Label>, f: Finding)
    requires !Startable(h)
    ensures var w := World(h, None, map[]);
      && Succeeds(h, w, labels, 0, f)
      && Step(Run(w, labels), Go(0, f)).host == h.(settings := Saved(true))
      && !Started(h.(settings := Saved(true)))
  {
    hide Run, Advance, Drive;
    var w, op, saved := World(h, None, map[]), EnsureRemoteControlStarted, h.(settings := Saved(true));
    labels := SoloBegins(h, op);
    var q := Asked(op, h).(at := Loading);
    EnsuringDrives(h, q);
    SoloDrives(w, labels, h, q, Late(h), Half(h) + 1);
    labels, f := labels + Repeat(Late(h), Half(h) + 1), Probe(0, 0);
    StartingSteps(saved, q.(current := Start), f);
  }

  /** So the condition is exact: it holds of a host if and only if every undisturbed success from there has its
      result. */
  lemma StartableIsExact(h: Host)
    ensures Startable(h) <==>
            forall w, labels, p, f :: Succeeds(h, w, labels, p, f) ==> Started(Step(Run(w, labels), Go(p, f)).host)
  {
    hide Succeeds, Step, Run, Started, Startable;
    if Startable(h) {
      forall w, labels, p, f | Succeeds(h, w, labels, p, f) ensures Started(Step(Run(w, labels), Go(p, f)).host) {
        RemoteControlIsStarted(h, w, labels, p, f);
      }
    } else {
      var labels, f := SuccessWithoutResult(h);
      assert Succeeds(h, World(h, None, map[]), labels, 0, f);
    }
  }
}
