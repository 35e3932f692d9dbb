/** Resolving what to build for each host, and probing the hosts, both for the whole fleet at once. */
module Precheck {
  import opened Hosts
  import Pipeline
  import opened Listing

  datatype Toplevel = Toplevel(drv: string, out: string)

  /** What one host's eval came back with. */
  datatype Eval = EvalFailed | Unparsable | Evaluated(top: Toplevel)

  /** Both halves must be there: a half-populated answer would build one path and activate another. */
  predicate Usable(e: Eval) { e.Evaluated? && e.top.drv != "" && e.top.out != "" }

  datatype Resolved = Tops(tops: map<string, Toplevel>) | Errors(names: seq<string>)

  datatype Slot = Empty | Good(top: Toplevel) | Bad

  function SlotOf(e: Eval): Slot { if Usable(e) then Good(e.top) else Bad }

  /** The hosts among the first `k` whose eval is unusable, in host order. */
  function Unresolved(hosts: seq<Host>, evals: seq<Eval>, k: nat): seq<string>
    requires k <= |hosts| == |evals|
  {
    if k == 0 then []
    else if Usable(evals[k - 1]) then Unresolved(hosts, evals, k - 1)
    else Unresolved(hosts, evals, k - 1) + [hosts[k - 1].name]
  }

  lemma {:induction false} UnresolvedEmpty(hosts: seq<Host>, evals: seq<Eval>, k: nat)
    requires k <= |hosts| == |evals|
    ensures Unresolved(hosts, evals, k) == [] <==> forall i :: 0 <= i < k ==> Usable(evals[i])
  {
    if k > 0 { UnresolvedEmpty(hosts, evals, k - 1); }
  }

  /** These are the names of the hosts whose eval failed, did not parse or lacks a half, in host order. */
  ghost predicate NamesBad(hosts: seq<Host>, evals: seq<Eval>, names: seq<string>, at: seq<nat>)
    requires |hosts| == |evals|
  {
    && Rising(at, |hosts|) && |names| == |at|
    && (forall k :: 0 <= k < |at| ==> names[k] == hosts[at[k]].name)
    && forall i: nat :: i in at <==>
         i < |hosts| && !(evals[i].Evaluated? && evals[i].top.drv != "" && evals[i].top.out != "")
  }

  lemma {:induction false} UnresolvedAt(hosts: seq<Host>, evals: seq<Eval>, k: nat) returns (at: seq<nat>)
    requires k <= |hosts| == |evals|
    ensures Rising(at, k) && |Unresolved(hosts, evals, k)| == |at|
    ensures forall j :: 0 <= j < |at| ==> Unresolved(hosts, evals, k)[j] == hosts[at[j]].name
    ensures forall i: nat :: i in at <==>
              i < k && !(evals[i].Evaluated? && evals[i].top.drv != "" && evals[i].top.out != "")
  {
    at := [];
    if k > 0 {
      at := UnresolvedAt(hosts, evals, k - 1);
      RisingOn(at, k - 1);
      if !Usable(evals[k - 1]) { at := at + [k - 1]; }
    }
  }

  function Indices(n: nat): (r: set<int>)
    ensures forall i: int :: i in r <==> 0 <= i < n
  {
    if n == 0 then {} else Indices(n - 1) + {n - 1}
  }

  /** The evals finish in any order; each goroutine writes its own slot. */
  method FillSlots(evals: seq<Eval>) returns (slots: array<Slot>)
    ensures fresh(slots) && slots.Length == |evals|
    ensures forall i :: 0 <= i < |evals| ==> slots[i] == SlotOf(evals[i])
  {
    slots := new Slot[|evals|](k => Empty);
    var running := Indices(|evals|);
    while running != {}
      invariant forall i :: i in running ==> 0 <= i < |evals|
      invariant forall i :: 0 <= i < |evals| && i !in running ==> slots[i] == SlotOf(evals[i])
      decreases |running|
    {
      var i :| i in running;
      slots[i] := SlotOf(evals[i]);
      running := running - {i};
    }
  }

  /** All or nothing: every host's own toplevel under its own name, or the names of all that failed. */
  method ResolveToplevels(hosts: seq<Host>, evals: seq<Eval>) returns (r: Resolved)
    requires |hosts| == |evals|
    ensures r.Tops? <==>
              forall i :: 0 <= i < |evals| ==> evals[i].Evaluated? && evals[i].top.drv != "" && evals[i].top.out != ""
    ensures r.Tops? <==> forall i :: 0 <= i < |evals| ==> Usable(evals[i])
    ensures r.Errors? ==> exists at :: NamesBad(hosts, evals, r.names, at)
    ensures r.Tops? ==> r.tops.Keys == set i | 0 <= i < |hosts| :: hosts[i].name
    ensures r.Tops? && DistinctNames(hosts) ==>
              forall i :: 0 <= i < |hosts| ==> hosts[i].name in r.tops && r.tops[hosts[i].name] == evals[i].top
  {
    var slots := FillSlots(evals);
    var errs: seq<string> := [];
    var out: map<string, Toplevel> := map[];
    for i := 0 to |hosts|
      invariant errs == Unresolved(hosts, evals, i)
      invariant errs == [] ==> out.Keys == set j | 0 <= j < i :: hosts[j].name
      invariant errs == [] && DistinctNames(hosts) ==>
                  forall j :: 0 <= j < i ==>
                    hosts[j].name in out && Usable(evals[j]) && out[hosts[j].name] == evals[j].top
    {
      if slots[i].Bad? {
        errs := errs + [hosts[i].name];
      } else {
        out := out[hosts[i].name := slots[i].top];
      }
    }
    UnresolvedEmpty(hosts, evals, |hosts|);
    ghost var at := UnresolvedAt(hosts, evals, |hosts|);
    assert NamesBad(hosts, evals, errs, at);
    r := if errs != [] then Errors(errs) else Tops(out);
  }

  // ---- The probes ----

  datatype Printer = NoAnswer | Idle | Busy

  /** What the probes of one host return; the two paths are as read, "" when unreadable. */
  datatype Probe = Probe(reachable: bool, printer: Printer, active: string, profile: string)

  datatype Pre = Pre(job: Pipeline.Job, skip: bool, failed: bool)

  /** Unreachable is a failure; a busy or silent printer is a skip unless forced. */
  function PrecheckHost(h: Host, top: Toplevel, force: bool, p: Probe): (r: Pre)
    ensures r.job.host == h && r.job.path == top.out && r.job.drv == top.drv
    ensures r.failed <==> !p.reachable
    ensures r.skip <==> !p.reachable || (h.InGroup("printer") && !force && !p.printer.Idle?)
    ensures r.job.upToDate <==> !r.skip && top.out != "" && p.active == top.out && p.profile == top.out
  {
    var job := Pipeline.Job(h, top.out, top.drv, false);
    if !p.reachable then Pre(job, true, true)
    else if h.InGroup("printer") && !force && !p.printer.Idle? then Pre(job, true, false)
    else Pre(job.(upToDate := top.out != "" && p.active == top.out && p.profile == top.out), false, false)
  }

  /** The probes finish in any order; the results keep host order, each with its own host's toplevel. */
  method PrecheckAll(hosts: seq<Host>, tops: map<string, Toplevel>, probes: seq<Probe>, force: bool)
    returns (out: seq<Pre>)
    requires |probes| == |hosts| && forall i :: 0 <= i < |hosts| ==> hosts[i].name in tops
    ensures |out| == |hosts|
    ensures forall i :: 0 <= i < |hosts| ==> out[i] == PrecheckHost(hosts[i], tops[hosts[i].name], force, probes[i])
  {
    var n := |hosts|;
    var blank := Pre(Pipeline.Job(Host("", 0, false, false, [], false, []), "", "", false), false, false);
    var slots := new Pre[n](k => blank);
    var running := Indices(n);
    while running != {}
      invariant forall i :: i in running ==> 0 <= i < n
      invariant forall i :: 0 <= i < n && i !in running ==>
                  slots[i] == PrecheckHost(hosts[i], tops[hosts[i].name], force, probes[i])
      decreases |running|
    {
      var i :| i in running;
      slots[i] := PrecheckHost(hosts[i], tops[hosts[i].name], force, probes[i]);
      running := running - {i};
    }
    out := slots[..];
  }
}
