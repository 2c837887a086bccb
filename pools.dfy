/**
 * The two capacity pools a staging attempt touches: the stager pool (where a stager is
 * selected) and the DEA pool (the run-capacity bookkeeping). Both keep the available
 * memory per worker in a map that reservations decrement.
 */
module Pools {
  import opened Common

  type WorkerId = string

  /** Available memory after reserving `mb` on worker `w`; a worker the pool does not know is left alone. */
  function Reserve(available: map<WorkerId, int>, w: WorkerId, mb: int): (r: map<WorkerId, int>)
    ensures r.Keys == available.Keys
    ensures w in available ==> r[w] == available[w] - mb
    ensures forall v :: v in available && v != w ==> r[v] == available[v]
  {
    if w in available then available[w := available[w] - mb] else available
  }

  class StagerPool {
    /** The order in which stagers advertised themselves; the deterministic tie-break. */
    var order: seq<WorkerId>
    var stacks: map<WorkerId, string>
    var memory: map<WorkerId, int>
    var disk: map<WorkerId, int>

    constructor (order: seq<WorkerId>, stacks: map<WorkerId, string>, memory: map<WorkerId, int>, disk: map<WorkerId, int>)
      ensures this.order == order && this.stacks == stacks && this.memory == memory && this.disk == disk
    {
      this.order, this.stacks, this.memory, this.disk := order, stacks, memory, disk;
    }

    /** Worker `w` runs `stack` and advertises at least `mb` memory and `diskMb` disk. */
    predicate Fits(w: WorkerId, stack: string, mb: int, diskMb: int)
      reads this
    {
      w in stacks && w in memory && w in disk &&
      stacks[w] == stack && memory[w] >= mb && disk[w] >= diskMb
    }

    /** The first worker of `ws` that fits. */
    function FirstFit(ws: seq<WorkerId>, stack: string, mb: int, diskMb: int): (r: Option<WorkerId>)
      reads this
      ensures r.None? <==> forall i :: 0 <= i < |ws| ==> !Fits(ws[i], stack, mb, diskMb)
      ensures r.Some? ==> exists i :: 0 <= i < |ws| && ws[i] == r.value && Fits(ws[i], stack, mb, diskMb) &&
                                      forall j :: 0 <= j < i ==> !Fits(ws[j], stack, mb, diskMb)
    {
      if ws == [] then None
      else if Fits(ws[0], stack, mb, diskMb) then Some(ws[0])
      else
        var r := FirstFit(ws[1..], stack, mb, diskMb);
        assert forall i :: 1 <= i < |ws| ==> ws[i] == ws[1..][i - 1];
        r
    }

    /** `find_stager(stack, memory, disk)`: a compatible stager, nil when there is none. */
    function FindStager(stack: string, mb: int, diskMb: int): (r: Option<WorkerId>)
      reads this
      ensures r.Some? ==> r.value in order && Fits(r.value, stack, mb, diskMb)
      ensures r.None? <==> forall w :: w in order ==> !Fits(w, stack, mb, diskMb)
    {
      FirstFit(order, stack, mb, diskMb)
    }

    /** `reserve_app_memory(stager_id, mb)`. */
    method ReserveAppMemory(w: WorkerId, mb: int)
      modifies this
      ensures memory == Reserve(old(memory), w, mb)
      ensures order == old(order) && stacks == old(stacks) && disk == old(disk)
    {
      memory := Reserve(memory, w, mb);
    }
  }

  class DeaPool {
    var memory: map<WorkerId, int>
    /** The (worker, app guid) pairs recorded by `mark_app_started`. */
    var started: set<(WorkerId, string)>

    constructor (memory: map<WorkerId, int>)
      ensures this.memory == memory && started == {}
    {
      this.memory := memory;
      started := {};
    }

    /** `reserve_app_memory(dea_id, mb)`. */
    method ReserveAppMemory(w: WorkerId, mb: int)
      modifies this
      ensures memory == Reserve(old(memory), w, mb) && started == old(started)
    {
      memory := Reserve(memory, w, mb);
    }

    /** `mark_app_started(dea_id:, app_id:)`. */
    method MarkAppStarted(w: WorkerId, appId: string)
      modifies this
      ensures started == old(started) + {(w, appId)} && memory == old(memory)
    {
      started := started + {(w, appId)};
    }
  }
}
