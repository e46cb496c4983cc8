/**
 * The pointer interaction resolver of `useRaycast`: a cache of wall and
 * interactive objects refreshed at most every 5000 ms, a throttled forward
 * obstruction check, hover feedback through the cursor, and click
 * classification that cancels walking on walls and empty space.
 *
 * Clocks are `int` millisecond parameters; each ray test is a `Ray` oracle.
 */
module Raycast {
  import opened Wrappers
  import opened Strings
  import opened Scene
  import opened Store

  const CacheInterval := 5000
  const MouseMoveInterval := 50
  const ForwardCheckInterval := 100
  /** A wall nearer than this straight ahead obstructs the camera. */
  const ObstructionDistance: real := 2.0

  /** `document.body.style.cursor`: unset until the first hover decision. */
  datatype Cursor = Unset | Default | Pointer

  /** The result of `checkClick`: what the click ray meets first, by kind. */
  datatype ClickResult = WallClick(hit: Hit) | InteractiveClick(hit: Hit) | NoTarget

  /** The cached buckets as a value. */
  datatype ObjectCache = ObjectCache(walls: seq<SceneObject>, interactive: seq<SceneObject>, lastUpdate: int)

  /** Every cached wall is classified a wall and every cached interactive object interactive. */
  ghost predicate CacheValid(c: ObjectCache) {
    && (forall o :: o in c.walls ==> Classify(o) == Wall)
    && (forall o :: o in c.interactive ==> Classify(o) == Interactive)
  }

  /** What `updateObjectCache` leaves behind when called at `now` on a scene traversed as `scene`. */
  function RefreshCache(c: ObjectCache, now: int, scene: seq<SceneObject>): (r: ObjectCache)
    ensures now - c.lastUpdate >= CacheInterval ==>
              && r.lastUpdate == now
              && (forall o :: o in r.walls <==> o in scene && Classify(o) == Wall)
              && (forall o :: o in r.interactive <==> o in scene && Classify(o) == Interactive)
    ensures now - c.lastUpdate < CacheInterval ==> r == c
  {
    if now - c.lastUpdate < CacheInterval then c
    else ObjectCache(Select(scene, Wall), Select(scene, Interactive), now)
  }

  /** A refresh keeps the cache valid, and one that ran keeps the scene's traversal order in each bucket. */
  lemma RefreshCacheSpec(c: ObjectCache, now: int, scene: seq<SceneObject>)
    requires CacheValid(c)
    ensures var c' := RefreshCache(c, now, scene);
      && CacheValid(c')
      && (now - c.lastUpdate >= CacheInterval ==>
            IsSubsequence(c'.walls, scene) && IsSubsequence(c'.interactive, scene))
  {
    SelectKeepsOrder(scene, Wall);
    SelectKeepsOrder(scene, Interactive);
  }

  /**
   * There is no "already populated" test: a cache that starts empty at time 0
   * stays empty for every refresh before 5000 ms, whatever the scene holds.
   */
  lemma {:induction false} EarlyRefreshesLeaveCacheEmpty(times: seq<int>, scene: seq<SceneObject>)
    requires forall k :: 0 <= k < |times| ==> times[k] < CacheInterval
    ensures RefreshAll(ObjectCache([], [], 0), times, scene) == ObjectCache([], [], 0)
    decreases |times|
  {
    if times != [] {
      EarlyRefreshesLeaveCacheEmpty(times[1..], scene);
    }
  }

  /** The cache after refreshes at each of `times` in turn. */
  function RefreshAll(c: ObjectCache, times: seq<int>, scene: seq<SceneObject>): ObjectCache
    decreases |times|
  {
    if times == [] then c else RefreshAll(RefreshCache(c, times[0], scene), times[1..], scene)
  }

  /**
   * Click classification: walls are tested first, then interactive objects;
   * the hit reported is a nearest one of the list that decided.
   */
  function ClassifyClick(wallHits: seq<Hit>, interactiveHits: seq<Hit>): (r: ClickResult)
    ensures r.WallClick? <==> wallHits != []
    ensures r.InteractiveClick? <==> wallHits == [] && interactiveHits != []
    ensures r.WallClick? ==> r.hit in wallHits && forall h :: h in wallHits ==> r.hit.distance <= h.distance
    ensures r.InteractiveClick? ==>
              r.hit in interactiveHits && forall h :: h in interactiveHits ==> r.hit.distance <= h.distance
  {
    if wallHits != [] then WallClick(Nearest(wallHits))
    else if interactiveHits != [] then InteractiveClick(Nearest(interactiveHits))
    else NoTarget
  }

  /** Hover feedback: the pointer cursor only when no wall is hit and something interactive is. */
  function HoverCursor(wallHits: seq<Hit>, interactiveHits: seq<Hit>): (r: Cursor)
    ensures r != Unset
    ensures r == Pointer <==> wallHits == [] && interactiveHits != []
  {
    if wallHits != [] then Default
    else if interactiveHits != [] then Pointer
    else Default
  }

  /** A click is cancelled (default prevented, propagation stopped, walking off) unless it is interactive. */
  predicate Cancels(r: ClickResult) {
    r.WallClick? || r.NoTarget?
  }

  /**
   * Click classification in terms of the scene: any wall on the ray wins, even
   * with interactive objects on it too (and even nearer); the reported hit is
   * the nearest wall.
   */
  lemma ClickClassification(walls: seq<SceneObject>, interactive: seq<SceneObject>, ray: Ray)
    ensures var r := ClassifyClick(Intersect(walls, ray), Intersect(interactive, ray));
      && (r.WallClick? <==> exists o :: o in walls && ray(o).Some?)
      && (r.InteractiveClick? <==>
            (forall o :: o in walls ==> ray(o).None?) && exists o :: o in interactive && ray(o).Some?)
      && (r.NoTarget? <==>
            (forall o :: o in walls ==> ray(o).None?) && (forall o :: o in interactive ==> ray(o).None?))
      && (r.WallClick? ==>
            r.hit.target in walls && forall o :: o in walls && ray(o).Some? ==> r.hit.distance <= ray(o).value)
      && (r.InteractiveClick? ==>
            r.hit.target in interactive
            && forall o :: o in interactive && ray(o).Some? ==> r.hit.distance <= ray(o).value)
  {
    AnyHitIff(walls, ray);
    AnyHitIff(interactive, ray);
    var wh := Intersect(walls, ray);
    var ih := Intersect(interactive, ray);
    forall o | o in walls && ray(o).Some? && wh != []
      ensures Nearest(wh).distance <= ray(o).value
    {
      assert Hit(ray(o).value, o) in wh;
    }
    forall o | o in interactive && ray(o).Some? && ih != []
      ensures Nearest(ih).distance <= ray(o).value
    {
      assert Hit(ray(o).value, o) in ih;
    }
  }

  /** Hover and click agree: the pointer cursor shows exactly where a click would not be cancelled. */
  lemma HoverAgreesWithClick(wallHits: seq<Hit>, interactiveHits: seq<Hit>)
    ensures HoverCursor(wallHits, interactiveHits) == Pointer <==>
              !Cancels(ClassifyClick(wallHits, interactiveHits))
  {
  }

  /** The state of one `useRaycast` instance: the object cache, the throttle clocks and the cursor. */
  class RaycastState {
    var walls: seq<SceneObject>
    var interactive: seq<SceneObject>
    var lastUpdate: int
    var lastMouseMove: int
    var lastForwardCheck: int
    var cursor: Cursor

    function Cache(): ObjectCache
      reads this
    {
      ObjectCache(walls, interactive, lastUpdate)
    }

    ghost predicate Valid()
      reads this
    {
      CacheValid(Cache())
    }

    constructor ()
      ensures Valid()
      ensures Cache() == ObjectCache([], [], 0)
      ensures lastMouseMove == 0 && lastForwardCheck == 0 && cursor == Unset
    {
      walls, interactive, lastUpdate := [], [], 0;
      lastMouseMove, lastForwardCheck := 0, 0;
      cursor := Unset;
    }

    /** `updateObjectCache`: rebuild both buckets by one traversal, unless refreshed within 5000 ms. */
    method UpdateObjectCache(now: int, scene: seq<SceneObject>)
      requires Valid()
      modifies this
      ensures Valid()
      ensures Cache() == RefreshCache(old(Cache()), now, scene)
      ensures lastMouseMove == old(lastMouseMove) && lastForwardCheck == old(lastForwardCheck)
      ensures cursor == old(cursor)
    {
      if now - lastUpdate < CacheInterval {
        return;
      }
      var w: seq<SceneObject> := [];
      var inter: seq<SceneObject> := [];
      var i := 0;
      while i < |scene|
        invariant 0 <= i <= |scene|
        invariant w == Select(scene[..i], Wall)
        invariant inter == Select(scene[..i], Interactive)
      {
        var o := scene[i];
        assert scene[..i + 1][..i] == scene[..i];
        if Named(o) {
          var lower := ToLower(o.name.value);
          if Contains(lower, WallKeyword) {
            w := w + [o];
          } else if HasKeyword(lower, InteractiveKeywords) {
            inter := inter + [o];
          }
        }
        i := i + 1;
      }
      assert scene[..i] == scene;
      walls, interactive, lastUpdate := w, inter, now;
    }

    /** `checkForwardObstruction`: is a wall closer than 2 units straight ahead? At most one check per 100 ms. */
    method CheckForwardObstruction(now: int, scene: seq<SceneObject>, ahead: Ray) returns (blocked: bool)
      requires Valid()
      modifies this
      ensures Valid()
      ensures old(now - lastForwardCheck < ForwardCheckInterval) ==>
                !blocked && Cache() == old(Cache()) && lastForwardCheck == old(lastForwardCheck)
      ensures old(now - lastForwardCheck >= ForwardCheckInterval) ==>
                && lastForwardCheck == now
                && Cache() == RefreshCache(old(Cache()), now, scene)
                && blocked == FirstHitWithin(walls, ahead, ObstructionDistance)
      ensures lastMouseMove == old(lastMouseMove) && cursor == old(cursor)
    {
      if now - lastForwardCheck < ForwardCheckInterval {
        return false;
      }
      lastForwardCheck := now;
      UpdateObjectCache(now, scene);
      var intersects := Intersect(walls, ahead);
      if intersects == [] {
        return false;
      }
      blocked := Nearest(intersects).distance < ObstructionDistance;
    }

    /** `checkClick`: refresh the cache if due, then classify what the click ray meets. */
    method CheckClick(now: int, scene: seq<SceneObject>, ray: Ray) returns (r: ClickResult)
      requires Valid()
      modifies this
      ensures Valid()
      ensures Cache() == RefreshCache(old(Cache()), now, scene)
      ensures r == ClassifyClick(Intersect(walls, ray), Intersect(interactive, ray))
      ensures lastMouseMove == old(lastMouseMove) && lastForwardCheck == old(lastForwardCheck)
      ensures cursor == old(cursor)
    {
      UpdateObjectCache(now, scene);
      var wallIntersects := Intersect(walls, ray);
      if wallIntersects != [] {
        return WallClick(Nearest(wallIntersects));
      }
      var interactiveIntersects := Intersect(interactive, ray);
      if interactiveIntersects != [] {
        return InteractiveClick(Nearest(interactiveIntersects));
      }
      return NoTarget;
    }

    /** `handleMouseMove`: at most one hover decision per 50 ms; the cache is not refreshed here. */
    method HandleMouseMove(now: int, ray: Ray)
      modifies this
      ensures Cache() == old(Cache()) && lastForwardCheck == old(lastForwardCheck)
      ensures old(now - lastMouseMove < MouseMoveInterval) ==>
                lastMouseMove == old(lastMouseMove) && cursor == old(cursor)
      ensures old(now - lastMouseMove >= MouseMoveInterval) ==>
                lastMouseMove == now && cursor == HoverCursor(Intersect(walls, ray), Intersect(interactive, ray))
    {
      if now - lastMouseMove < MouseMoveInterval {
        return;
      }
      lastMouseMove := now;
      var wallIntersects := Intersect(walls, ray);
      if wallIntersects != [] {
        cursor := Default;
        return;
      }
      var interactiveIntersects := Intersect(interactive, ray);
      if interactiveIntersects != [] {
        cursor := Pointer;
      } else {
        cursor := Default;
      }
    }

    /**
     * `handleClick`: a click on a wall or on nothing is cancelled and switches
     * walking off in the store; an interactive click goes on to the object's own handler.
     */
    method HandleClick(now: int, scene: seq<SceneObject>, ray: Ray, store: CameraStore)
      returns (cancelled: bool)
      requires Valid()
      modifies this, store
      ensures Valid()
      ensures Cache() == RefreshCache(old(Cache()), now, scene)
      ensures cancelled == Cancels(ClassifyClick(Intersect(walls, ray), Intersect(interactive, ray)))
      ensures store.State() == if cancelled then old(store.State()).(isWalking := false) else old(store.State())
      ensures lastMouseMove == old(lastMouseMove) && lastForwardCheck == old(lastForwardCheck)
      ensures cursor == old(cursor)
    {
      var clickResult := CheckClick(now, scene, ray);
      if clickResult.WallClick? {
        store.SetIsWalking(false);
        return true;
      }
      if clickResult.InteractiveClick? {
        return false;
      }
      store.SetIsWalking(false);
      return true;
    }
  }

  /**
   * A hook mounted and clicked within the first 5000 ms has an empty cache,
   * so every such click is classified as hitting nothing and is cancelled,
   * whatever the scene and the ray.
   */
  method EarlyClickIsCancelled(mountTime: int, clickTime: int, scene: seq<SceneObject>, ray: Ray)
    returns (cancelled: bool)
    requires 0 <= mountTime <= clickTime < CacheInterval
    ensures cancelled
  {
    var hook := new RaycastState();
    var store := new CameraStore();
    hook.UpdateObjectCache(mountTime, scene);
    cancelled := hook.HandleClick(clickTime, scene, ray, store);
  }
}
