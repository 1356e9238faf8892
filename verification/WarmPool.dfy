// The warm pool (internal/pool/pool.go): an idle list shifted and appended in
// place, and the counter of sandboxes being warmed.
module WarmPool {
  import opened Wrappers
  import opened Platform
  import opened Lifecycle
  import opened Runtime

  // What the k-th creation of a replenishment draws and meets.
  datatype Attempt = Attempt(warmId: string, faults: Faults)

  // Replenishing repeats Warm until the target is met or a creation fails.
  function WarmAll(c: Config, s: System, draw: nat -> Attempt, k: nat, now: int): System
    decreases TargetIdle(c) - |s.idle|
  {
    var (s1, ok) := Warm(c, s, draw(k).warmId, now, draw(k).faults);
    if ok then WarmAll(c, s1, draw, k + 1, now) else s1
  }

  class Pool {
    const cfg: Config
    var slots: array<Option<Handle>>
    var len: nat
    var warming: nat
    ghost var idle: seq<Handle>  // the first `len` slots

    constructor (cfg: Config)
      ensures Valid() && this.cfg == cfg && idle == [] && warming == 0 && fresh(slots)
    {
      this.cfg := cfg;
      slots := new Option<Handle>[1](_ => None);
      len, warming, idle := 0, 0, [];
    }

    // Every idle handle names a pod.
    ghost predicate Valid()
      reads this, slots
    {
      && len == |idle| <= slots.Length
      && (forall i | 0 <= i < len :: slots[i] == Some(idle[i]) && idle[i].podName != "")
    }

    // First in, first out: the front handle leaves and the rest moves up.
    method Acquire(image: string) returns (h: Option<Handle>)
      requires Valid()
      modifies this`len, this`idle, slots
      ensures Valid() && slots == old(slots) && warming == old(warming)
      ensures if image == cfg.defaultImage && old(idle) != []
              then h == Some(old(idle)[0]) && h.value.podName != "" && idle == old(idle)[1..]
              else h == None && idle == old(idle)
    {
      if image != cfg.defaultImage || len == 0 { return None; }
      h := slots[0];
      for i := 1 to len
        invariant len == old(len) && idle == old(idle)
        invariant forall j | 0 <= j < i - 1 :: slots[j] == old(slots[j + 1])
        invariant forall j | i - 1 <= j < slots.Length :: slots[j] == old(slots[j])
      {
        slots[i - 1] := slots[i];
      }
      slots[len - 1] := None;
      len, idle := len - 1, idle[1..];
    }

    method ReserveWarmingSlot() returns (ok: bool)
      requires Valid()
      modifies this`warming
      ensures Valid() && idle == old(idle)
      ensures ok == (TargetIdle(cfg) > 0 && len + old(warming) < TargetIdle(cfg))
      ensures warming == if ok then old(warming) + 1 else old(warming)
    {
      var target := TargetIdle(cfg);
      if target <= 0 || len + warming >= target { return false; }
      warming := warming + 1;
      return true;
    }

    method FinishWarming(h: Option<Handle>)
      requires Valid() && (h.Some? ==> h.value.podName != "")
      modifies this, slots
      ensures Valid() && (slots == old(slots) || fresh(slots))
      ensures warming == if old(warming) > 0 then old(warming) - 1 else 0
      ensures idle == if h.Some? && |old(idle)| < TargetIdle(cfg) then old(idle) + [h.value] else old(idle)
    {
      if warming > 0 { warming := warming - 1; }
      if h.Some? && len < TargetIdle(cfg) {
        if len == slots.Length {
          var full := slots;
          slots := new Option<Handle>[2 * len + 1](
            i reads this, full requires len <= full.Length => if 0 <= i < len then full[i] else None);
        }
        slots[len] := h;
        len, idle := len + 1, idle + [h.value];
      }
    }

    method CreateOne(rt: KubeRuntime, id: string, now: int, f: Faults) returns (ok: bool)
      requires Valid() && warming > 0 && len < TargetIdle(cfg)
      modifies this, slots, rt
      ensures Valid() && (slots == old(slots) || fresh(slots)) && warming == old(warming) - 1
      ensures forall s: System :: s.kube == old(rt.View()) && s.idle == old(idle) ==>
        Warm(cfg, s, id, now, f) == (s.(kube := rt.View(), idle := idle), ok)
    {
      var h := rt.Create(id, true, cfg.poolCaCert, now, f.api);
      if h.None? {
        FinishWarming(None);
        return false;
      }
      if f.notReady {
        rt.Purge(h.value.podName, h.value.pvcName);
        FinishWarming(None);
        return false;
      }
      FinishWarming(h);
      return true;
    }

    method Replenish(rt: KubeRuntime, draw: nat -> Attempt, now: int, ghost s: System)
      requires Valid() && warming == 0 && s.kube == rt.View() && s.idle == idle
      modifies this, slots, rt
      ensures Valid() && warming == 0 && (slots == old(slots) || fresh(slots))
      ensures WarmAll(cfg, s, draw, 0, now) == s.(kube := rt.View(), idle := idle)
    {
      var k := 0;
      ghost var t := s;
      var more := ReserveWarmingSlot();
      while more
        invariant Valid() && (slots == old(slots) || fresh(slots))
        invariant warming == (if more then 1 else 0) && (more ==> len < TargetIdle(cfg))
        invariant more <==> TargetIdle(cfg) > 0 && len < TargetIdle(cfg)
        invariant t == s.(kube := rt.View(), idle := idle)
        invariant WarmAll(cfg, s, draw, 0, now) == WarmAll(cfg, t, draw, k, now)
        decreases TargetIdle(cfg) - len
      {
        var ok := CreateOne(rt, draw(k).warmId, now, draw(k).faults);
        assert Warm(cfg, t, draw(k).warmId, now, draw(k).faults) == (t.(kube := rt.View(), idle := idle), ok);
        t := t.(kube := rt.View(), idle := idle);
        if !ok { return; }
        k := k + 1;
        more := ReserveWarmingSlot();
      }
    }
  }
}
