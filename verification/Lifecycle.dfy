/** The lifecycle of claims, over every run: sound histories that only move forward, one phase at a time. */
module Lifecycle {
  import opened Claims
  import opened Environment
  import opened ApiServer
  import opened Histories
  import opened Runs

  /** At every moment of every run, with any faults, stops and stale reads, the history of every claim is
      sound, and every address recorded in any version was handed out. */
  lemma {:induction false} EveryHistorySound(e: Env, r: Run, n: nat, key: Key)
    requires IsRun(e, r) && Start(r.worlds[0]) && AddressesNonempty(e) && TenantRun(r) && n < |r.worlds|
    ensures var w := r.worlds[n];
            SoundHistory(key, HistoryOf(w.kube.store, key)) && IssuedHistory(w.nb, HistoryOf(w.kube.store, key))
  {
    StartSane(r.worlds[0]);
    RunSane(e, r, n);
    assert SaneKey(r.worlds[n], key);
  }

  function PhaseOf(c: Claim): Phase { if c.Cluster? then c.st.phase else c.sst.phase }

  function Rank(p: Phase): nat {
    match p
    case Pending => 0
    case Provisioning => 1
    case ClusterReady => 2
    case AddonsReady => 3
    case Ready => 4
    case Failed => 5
  }

  /** Between any two versions of one claim the phase only moves on, Failed is final and entered only
      from the first two phases, and no recorded address disappears or moves. */
  lemma {:induction false} OnlyForward(key: Key, h: History, i: nat, j: nat)
    requires SoundHistory(key, h) && i <= j < |h|
    requires forall n :: i <= n <= j ==> h[n].Some?
    ensures var p, q := PhaseOf(h[i].value), PhaseOf(h[j].value);
            && Rank(p) <= Rank(q)
            && (q == Failed ==> p == Failed || p == Pending || p == Provisioning)
            && (p == Failed ==> q == Failed)
            && (h[i].value.Cluster? <==> h[j].value.Cluster?)
            && Recorded(Address, h[i].value) <= Recorded(Address, h[j].value)
  {
    if i < j {
      OnlyForward(key, h, i, j - 1);
      assert Adjacent(h[j - 1], h[j]);
      assert Sound(key, h[j - 1].value) && Sound(key, h[j].value);
    }
  }

  /** One version to the next moves the phase of a cluster claim by at most one step. */
  lemma OneStepAtATime(key: Key, h: History, i: nat)
    requires SoundHistory(key, h) && i + 1 < |h| && h[i].Some? && h[i + 1].Some? && h[i].value.Cluster?
    ensures var p, q := PhaseOf(h[i].value), PhaseOf(h[i + 1].value);
            q != Failed ==> Rank(q) <= Rank(p) + 1
  {
    assert Adjacent(h[i], h[i + 1]);
  }
}
