/** The asset loader `Assets` (assets.js): the `totalAssets` / `loadedAssets` counters, the
    texture collection, the percent shown on the loading bar, and the simulated progress of
    `init`.

    `loadTexture` starts a request and returns; the loader later calls exactly one of its two
    callbacks. A request is therefore modelled as a record in `requests`, and the callback as a
    separate step `Settle` that names the request it completes. `reports` lists, in order, the
    percents handed to `Utils.updateLoadingProgress`. */
module Assets {
  import opened Common

  /** A texture: one drawn on a canvas by `generateProceduralTextures`, or one the loader
      fetched from a path. */
  datatype Texture = Procedural(name: string) | Fetched(path: string)

  /** A `loadTexture` call; `done` once one of its callbacks ran. */
  datatype Request = Request(name: string, path: string, done: bool)

  datatype Loading = Loading(
    total: nat, loaded: nat, requests: seq<Request>,
    textures: map<string, Texture>, reports: seq<int>,
    progress: int, ticking: bool, resolved: bool)

  /** The requests whose callback ran. */
  function Done(rs: seq<Request>): (n: nat)
    ensures n <= |rs|
    ensures n == |rs| <==> forall i :: 0 <= i < |rs| ==> rs[i].done
    decreases |rs|
  {
    if rs == [] then 0
    else Done(rs[..|rs| - 1]) + (if rs[|rs| - 1].done then 1 else 0)
  }

  lemma {:induction false} DoneUpdate(rs: seq<Request>, id: nat)
    requires id < |rs|
    ensures !rs[id].done ==> Done(rs[id := rs[id].(done := true)]) == Done(rs) + 1
    decreases |rs|
  {
    if !rs[id].done {
      var n := |rs|;
      var rs' := rs[id := rs[id].(done := true)];
      var init, init' := rs[..n - 1], rs'[..n - 1];
      assert Done(rs) == Done(init) + (if rs[n - 1].done then 1 else 0);
      assert Done(rs') == Done(init') + (if rs'[n - 1].done then 1 else 0);
      if id < n - 1 {
        assert init' == init[id := rs[id].(done := true)];
        DoneUpdate(init, id);
      } else {
        assert init' == init;
      }
    }
  }

  lemma DoneAppend(rs: seq<Request>, r: Request)
    requires !r.done
    ensures Done(rs + [r]) == Done(rs)
  {
    assert (rs + [r])[..|rs|] == rs;
  }

  /** The counters count the requests, and the callbacks that ran. */
  ghost predicate Valid(s: Loading)
  {
    s.total == |s.requests| && s.loaded == Done(s.requests)
  }

  /** `updateLoadingProgress(forcedPercent)`: the forced value when there is one, otherwise 100
      while nothing was requested, otherwise the loaded share rounded down. */
  function Percent(forced: Option<int>, loaded: nat, total: nat): (p: int)
    ensures forced.Some? ==> p == forced.value
    ensures forced.None? && total == 0 ==> p == 100
    ensures forced.None? && total > 0 ==>
      p as real <= loaded as real / total as real * 100.0 < p as real + 1.0
  {
    if forced.Some? then forced.value
    else if total == 0 then 100
    else (loaded as real / total as real * 100.0).Floor
  }

  /** With no more loaded than requested, the computed percent is in [0, 100], and it is 100
      exactly when every request has completed. */
  lemma PercentRange(loaded: nat, total: nat)
    requires loaded <= total && total > 0
    ensures 0 <= Percent(None, loaded, total) <= 100
    ensures Percent(None, loaded, total) == 100 <==> loaded == total
  {
    var share := loaded as real / total as real;
    assert share * total as real == loaded as real;
    assert 0.0 <= share;
    assert (1.0 - share) * total as real == total as real - loaded as real;
    PositiveFactor(1.0 - share, total as real, loaded < total);
  }

  /** A product with a positive factor has the other factor's sign. */
  lemma PositiveFactor(a: real, b: real, strict: bool)
    requires b > 0.0 && a * b >= 0.0 && (strict ==> a * b > 0.0)
    ensures a >= 0.0 && (strict ==> a > 0.0)
  {
  }

  function Reported(s: Loading, forced: Option<int>): Loading
  {
    s.(reports := s.reports + [Percent(forced, s.loaded, s.total)])
  }

  /** The four canvases `generateProceduralTextures` draws. */
  const ProceduralTextures: map<string, Texture> := map[
    "ground" := Procedural("ground"), "building" := Procedural("building"),
    "sky" := Procedural("sky"), "character" := Procedural("character")]

  /** `init` up to the interval: the procedural textures are stored, the percent is reported,
      and the simulated progress starts at 0. */
  function Started(s: Loading): (r: Loading)
    ensures r.textures == s.textures + ProceduralTextures
    ensures r.reports == s.reports + [Percent(None, s.loaded, s.total)]
    ensures r.progress == 0 && r.ticking && !r.resolved
    ensures r.total == s.total && r.loaded == s.loaded && r.requests == s.requests
  {
    Reported(s.(textures := s.textures + ProceduralTextures), None)
      .(progress := 0, ticking := true, resolved := false)
  }

  /** One firing of the 100 ms interval: the progress goes up by 5 and is reported; at 100 the
      interval is cleared and the `init` promise resolves. A cleared interval does not fire. */
  function Ticked(s: Loading): (r: Loading)
    ensures !s.ticking ==> r == s
    ensures s.ticking ==>
      r.progress == s.progress + 5 && r.reports == s.reports + [s.progress + 5] &&
      (r.ticking <==> s.progress + 5 < 100) && (r.resolved <==> s.resolved || s.progress + 5 >= 100)
    ensures r.textures == s.textures && r.total == s.total && r.loaded == s.loaded
  {
    if !s.ticking then s
    else
      var p := s.progress + 5;
      var s1 := Reported(s.(progress := p), Some(p));
      if p >= 100 then s1.(ticking := false, resolved := true) else s1
  }

  function Ticks(s: Loading, k: nat): Loading
    decreases k
  {
    if k == 0 then s else Ticks(Ticked(s), k - 1)
  }

  /** The percents the simulated progress reports, `5·(from+1)` up to `5·(from+k)`. */
  function Ramp(from: nat, k: nat): (r: seq<int>)
    ensures |r| == k && forall i :: 0 <= i < k ==> r[i] == 5 * (from + i + 1)
  {
    seq(k, i => 5 * (from + i + 1))
  }

  lemma {:induction false} TicksFrom(s: Loading, j: nat, k: nat)
    requires s.ticking && !s.resolved && s.progress == 5 * j && j < 20 && j + k <= 20
    ensures Ticks(s, k).reports == s.reports + Ramp(j, k)
    ensures j + k < 20 ==> Ticks(s, k).ticking && !Ticks(s, k).resolved
    ensures j + k == 20 ==> !Ticks(s, k).ticking && Ticks(s, k).resolved
    ensures Ticks(s, k).textures == s.textures
    decreases k
  {
    if k > 0 {
      var t := Ticked(s);
      if j + 1 < 20 {
        TicksFrom(t, j + 1, k - 1);
        assert Ticks(s, k) == Ticks(t, k - 1);
        assert Ramp(j, k) == [5 * (j + 1)] + Ramp(j + 1, k - 1);
      } else {
        assert j == 19 && k == 1;
        assert Ticks(s, k) == Ticks(t, 0) == t;
      }
    }
  }

  /** After `init` the loading bar shows 5, 10, ..., 100 at the twenty firings, and the promise
      resolves on the twentieth and not before. */
  lemma SimulatedProgress(s: Loading, k: nat)
    requires k <= 20
    ensures var r := Ticks(Started(s), k);
      r.reports == Started(s).reports + Ramp(0, k) &&
      (r.resolved <==> k == 20) && r.textures == s.textures + ProceduralTextures
  {
    TicksFrom(Started(s), 0, k);
  }

  /** `loadTexture(name, path)`: one more asset requested. */
  function Requested(s: Loading, name: string, path: string): (r: Loading)
    ensures r.total == s.total + 1 && r.loaded == s.loaded
    ensures r.requests == s.requests + [Request(name, path, false)] && r.textures == s.textures
    ensures Valid(s) ==> Valid(r)
  {
    DoneAppend(s.requests, Request(name, path, false));
    s.(total := s.total + 1, requests := s.requests + [Request(name, path, false)])
  }

  /** The loader's callback for request `id`: the success callback stores the texture under the
      request's name, the error callback stores nothing; both count the asset as loaded once and
      report the new percent. */
  function Settled(s: Loading, id: nat, texture: Option<Texture>): (r: Loading)
    requires id < |s.requests|
    ensures r.loaded == s.loaded + 1 && r.total == s.total
    ensures r.requests == s.requests[id := s.requests[id].(done := true)]
    ensures texture.Some? ==> r.textures == s.textures[s.requests[id].name := texture.value]
    ensures texture.None? ==> r.textures == s.textures
    ensures r.reports == s.reports + [Percent(None, s.loaded + 1, s.total)]
    ensures Valid(s) && !s.requests[id].done ==> Valid(r)
  {
    DoneUpdate(s.requests, id);
    var textures := if texture.Some? then s.textures[s.requests[id].name := texture.value]
                    else s.textures;
    Reported(s.(textures := textures, loaded := s.loaded + 1,
                requests := s.requests[id := s.requests[id].(done := true)]), None)
  }

  /** Under the invariant at most everything requested has loaded, so every percent a callback
      reports is in [0, 100], and it is 100 exactly when every request has completed. */
  lemma SettledReportInRange(s: Loading, id: nat, texture: Option<Texture>)
    requires Valid(s) && id < |s.requests| && !s.requests[id].done
    ensures var r := Settled(s, id, texture);
      0 <= r.reports[|r.reports| - 1] <= 100 &&
      (r.reports[|r.reports| - 1] == 100 <==> forall i :: 0 <= i < |r.requests| ==> r.requests[i].done)
  {
    var r := Settled(s, id, texture);
    assert Valid(r);
    PercentRange(s.loaded + 1, s.total);
  }

  // ---------------------------------------------------------------------------------------------
  // The object

  class Assets {
    var totalAssets: nat
    var loadedAssets: nat
    var requests: seq<Request>
    var textures: map<string, Texture>
    var reports: seq<int>
    var progress: int
    var ticking: bool
    var resolved: bool

    function State(): Loading
      reads this
    {
      Loading(totalAssets, loadedAssets, requests, textures, reports, progress, ticking, resolved)
    }

    constructor ()
      ensures State() == Loading(0, 0, [], map[], [], 0, false, false)
      ensures Valid(State())
    {
      totalAssets := 0;
      loadedAssets := 0;
      requests := [];
      textures := map[];
      reports := [];
      progress := 0;
      ticking := false;
      resolved := false;
    }

    /** `updateLoadingProgress(forcedPercent)`. */
    method UpdateLoadingProgress(forced: Option<int>)
      modifies this
      ensures State() == Reported(old(State()), forced)
    {
      var percent;
      if forced.Some? {
        percent := forced.value;
      } else if totalAssets == 0 {
        percent := 100;
      } else {
        percent := (loadedAssets as real / totalAssets as real * 100.0).Floor;
      }
      reports := reports + [percent];
    }

    /** `init` up to the start of the interval. */
    method Init()
      modifies this
      ensures State() == Started(old(State()))
    {
      textures := textures + ProceduralTextures;
      UpdateLoadingProgress(None);
      progress := 0;
      ticking := true;
      resolved := false;
    }

    /** One firing of `init`'s interval. */
    method Tick()
      modifies this
      ensures State() == Ticked(old(State()))
    {
      if !ticking {
        return;
      }
      progress := progress + 5;
      UpdateLoadingProgress(Some(progress));
      if progress >= 100 {
        ticking := false;
        resolved := true;
      }
    }

    /** `loadTexture(name, path)`, up to the request; the returned index names it. */
    method LoadTexture(name: string, path: string) returns (id: nat)
      modifies this
      ensures State() == Requested(old(State()), name, path)
      ensures id == |old(requests)|
    {
      totalAssets := totalAssets + 1;
      id := |requests|;
      requests := requests + [Request(name, path, false)];
    }

    /** The callback the loader runs for request `id`: success with the texture, or the error
        callback. The promise resolves with the result, `null` on error. */
    method Settle(id: nat, texture: Option<Texture>) returns (resolvedWith: Option<Texture>)
      requires id < |requests| && !requests[id].done
      modifies this
      ensures State() == Settled(old(State()), id, texture)
      ensures resolvedWith == texture
    {
      if texture.Some? {
        textures := textures[requests[id].name := texture.value];
      }
      loadedAssets := loadedAssets + 1;
      requests := requests[id := requests[id].(done := true)];
      UpdateLoadingProgress(None);
      resolvedWith := texture;
    }
  }
}
