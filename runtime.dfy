// The process-wide record of which renderer backend is running, which can be set only once.
module Runtime {
  import opened Wrappers
  import Configuration

  datatype RendererBackendKind = Vulkan | Dx12 | Wgpu

  /** The kind recorded for a configured backend: the one of the same name. */
  function KindOf(b: Configuration.GraphicsBackend): (k: RendererBackendKind)
    ensures b == Configuration.Vulkan <==> k == Vulkan
    ensures b == Configuration.Dx12 <==> k == Dx12
    ensures b == Configuration.Wgpu <==> k == Wgpu
  {
    match b
    case Vulkan => Vulkan
    case Dx12 => Dx12
    case Wgpu => Wgpu
  }

  /** The record after a sequence of `init_renderer_backend` calls, starting from empty. */
  function AfterInits(inits: seq<Configuration.GraphicsBackend>): Option<RendererBackendKind>
    decreases |inits|
  {
    if inits == [] then None
    else
      var before := AfterInits(inits[..|inits| - 1]);
      if before.Some? then before else Some(KindOf(inits[|inits| - 1]))
  }

  /** The `OnceLock` behind `init_renderer_backend` and `renderer_backend`. */
  class BackendRegistry {
    var slot: Option<RendererBackendKind>
    /** The backends passed to `init_renderer_backend` so far, in call order. */
    ghost var calls: seq<Configuration.GraphicsBackend>

    ghost predicate Valid()
      reads this
    {
      slot == AfterInits(calls)
    }

    /** Before any initialisation there is no backend. */
    constructor ()
      ensures Valid() && calls == [] && slot == None
    {
      slot := None;
      calls := [];
    }

    /** `init_renderer_backend`: the first call records its backend; later calls are ignored. */
    method Init(backend: Configuration.GraphicsBackend)
      requires Valid()
      modifies this
      ensures Valid() && calls == old(calls) + [backend]
      ensures slot == if old(slot).None? then Some(KindOf(backend)) else old(slot)
    {
      if slot.None? {
        slot := Some(KindOf(backend));
      }
      calls := calls + [backend];
      assert calls[..|calls| - 1] == old(calls);
    }

    /** `renderer_backend`. */
    function RendererBackend(): Option<RendererBackendKind>
      reads this
    {
      slot
    }
  }

  /**
   * Whatever follows the first initialisation, the recorded backend is the first one's;
   * with no initialisation there is none.
   */
  lemma {:induction false} FirstInitWins(inits: seq<Configuration.GraphicsBackend>)
    ensures inits == [] <==> AfterInits(inits).None?
    ensures inits != [] ==> AfterInits(inits) == Some(KindOf(inits[0]))
    decreases |inits|
  {
    if |inits| > 1 {
      var init := inits[..|inits| - 1];
      FirstInitWins(init);
      assert init[0] == inits[0];
    } else if |inits| == 1 {
      assert inits[..0] == [];
    }
  }

  /** Distinct backends are recorded as distinct kinds. */
  lemma KindOfIsInjective(a: Configuration.GraphicsBackend, b: Configuration.GraphicsBackend)
    ensures KindOf(a) == KindOf(b) <==> a == b
  {
  }
}
