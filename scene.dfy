/**
 * The scene as the interaction code sees it: a traversal order of named
 * objects, the name-based classification into walls and interactive
 * objects, and ray tests against a set of objects.
 *
 * A ray test is an oracle: for each object, the distance at which the ray
 * meets it (its nearest face), if it does. `Intersect` lists the hits in
 * traversal order and `Nearest` picks the one three.js reports first after
 * its stable sort by distance.
 */
module Scene {
  import opened Wrappers
  import opened Strings

  /** A scene-graph object: its identity and its `name`, absent or a string. */
  datatype SceneObject = SceneObject(id: nat, name: Option<string>)

  /** JavaScript truthiness of `obj.name`: present and not empty. */
  predicate Named(o: SceneObject) {
    o.name.Some? && o.name.value != []
  }

  const WallKeyword: string := "wall"

  /** The keywords that make an object clickable, in the order the source tests them. */
  const InteractiveKeywords: seq<string> :=
    ["floor", "intro_poster", "mp", "mfp", "vinyl", "telephone", "pc",
     "paper", "art", "canvas", "key", "piano", "clock"]

  datatype Bucket = Wall | Interactive | Inert

  /** Some keyword of `keywords` occurs in `lower`. */
  function HasKeyword(lower: string, keywords: seq<string>): (r: bool)
    ensures r <==> exists k :: k in keywords && Contains(lower, k)
  {
    if keywords == [] then false
    else
      if Contains(lower, keywords[0]) then
        assert keywords[0] in keywords;
        true
      else
        var r := HasKeyword(lower, keywords[1..]);
        assert forall k :: k in keywords ==> k == keywords[0] || k in keywords[1..];
        assert r ==> exists k :: k in keywords && Contains(lower, k) by {
          if r {
            var k :| k in keywords[1..] && Contains(lower, k);
            assert k in keywords;
          }
        }
        r
  }

  /**
   * The bucket the object cache puts an object in, from its lower-cased name
   * alone. Walls take precedence: a name containing "wall" is a wall whatever
   * else it contains; unnamed objects are inert.
   */
  function Classify(o: SceneObject): (b: Bucket)
    ensures b == Wall <==> Named(o) && Contains(ToLower(o.name.value), WallKeyword)
    ensures b == Interactive <==>
              Named(o) && !Contains(ToLower(o.name.value), WallKeyword)
              && exists k :: k in InteractiveKeywords && Contains(ToLower(o.name.value), k)
    ensures !Named(o) ==> b == Inert
  {
    if !Named(o) then Inert
    else
      var lower := ToLower(o.name.value);
      if Contains(lower, WallKeyword) then Wall
      else if HasKeyword(lower, InteractiveKeywords) then Interactive
      else Inert
  }

  /** "Wallpaper" lower-cases to "wallpaper", which contains both "wall" and "paper": it is a wall. */
  lemma WallpaperIsWall()
    ensures Classify(SceneObject(0, Some("Wallpaper"))) == Wall
  {
    var lower := ToLower("Wallpaper");
    assert lower == "wallpaper";
    assert OccursAt(lower, WallKeyword, 0);
    assert OccursAt(lower, "paper", 4);
  }

  /**
   * The objects of `objs` in bucket `b`, in traversal order: the list the
   * traversal builds by pushing each object of that bucket as it is visited.
   */
  function Select(objs: seq<SceneObject>, b: Bucket): (r: seq<SceneObject>)
    ensures |r| <= |objs|
    ensures forall o :: o in r ==> o in objs && Classify(o) == b
    ensures forall o :: o in objs && Classify(o) == b ==> o in r
  {
    if objs == [] then []
    else
      var init := Select(objs[..|objs| - 1], b);
      var last := objs[|objs| - 1];
      assert objs == objs[..|objs| - 1] + [last];
      if Classify(last) == b then init + [last] else init
  }

  /** `sub` is `s` with some elements left out, the rest in their original order. */
  ghost predicate IsSubsequence<T>(sub: seq<T>, s: seq<T>)
    decreases |s|
  {
    || sub == []
    || (s != [] &&
         (|| (sub[|sub| - 1] == s[|s| - 1] && IsSubsequence(sub[..|sub| - 1], s[..|s| - 1]))
          || IsSubsequence(sub, s[..|s| - 1])))
  }

  /** Each bucket keeps the traversal order. */
  lemma {:induction false} SelectKeepsOrder(objs: seq<SceneObject>, b: Bucket)
    ensures IsSubsequence(Select(objs, b), objs)
  {
    if objs != [] {
      var init := objs[..|objs| - 1];
      SelectKeepsOrder(init, b);
      var r := Select(objs, b);
      if Classify(objs[|objs| - 1]) == b {
        assert r[..|r| - 1] == Select(init, b);
      }
    }
  }

  /** No object lands in two buckets, and unnamed objects land in neither list. */
  lemma BucketsDisjoint(objs: seq<SceneObject>, o: SceneObject)
    ensures !(o in Select(objs, Wall) && o in Select(objs, Interactive))
    ensures !Named(o) ==> o !in Select(objs, Wall) && o !in Select(objs, Interactive)
  {
  }

  // ------------------------------------------------------------------ rays

  /** Distance at which a ray meets an object, if it meets it at all. */
  type Ray = SceneObject -> Option<real>

  datatype Hit = Hit(distance: real, target: SceneObject)

  /** `raycaster.intersectObjects(objs, false)` before sorting: the hits, in traversal order. */
  function Intersect(objs: seq<SceneObject>, ray: Ray): (hits: seq<Hit>)
    ensures |hits| <= |objs|
    ensures forall h :: h in hits ==> h.target in objs && ray(h.target) == Some(h.distance)
    ensures forall o :: o in objs && ray(o).Some? ==> Hit(ray(o).value, o) in hits
  {
    if objs == [] then []
    else
      var rest := Intersect(objs[1..], ray);
      match ray(objs[0])
      case Some(d) => [Hit(d, objs[0])] + rest
      case None => rest
  }

  /** The first entry of the sorted hit list: least distance, earliest among ties. */
  function Nearest(hits: seq<Hit>): (h: Hit)
    requires hits != []
    ensures h in hits
    ensures forall k :: k in hits ==> h.distance <= k.distance
  {
    if |hits| == 1 then hits[0]
    else
      var rest := Nearest(hits[1..]);
      if hits[0].distance <= rest.distance then hits[0] else rest
  }

  /** `intersects.length > 0 && intersects[0].distance < limit`. */
  predicate FirstHitWithin(objs: seq<SceneObject>, ray: Ray, limit: real) {
    var hits := Intersect(objs, ray);
    hits != [] && Nearest(hits).distance < limit
  }

  /** The first hit is within `limit` exactly when some object of the set is met within `limit`. */
  lemma FirstHitWithinIff(objs: seq<SceneObject>, ray: Ray, limit: real)
    ensures FirstHitWithin(objs, ray, limit) <==>
              exists o :: o in objs && ray(o).Some? && ray(o).value < limit
  {
    var hits := Intersect(objs, ray);
    if exists o :: o in objs && ray(o).Some? && ray(o).value < limit {
      var o :| o in objs && ray(o).Some? && ray(o).value < limit;
      assert Hit(ray(o).value, o) in hits;
    }
    if FirstHitWithin(objs, ray, limit) {
      var h := Nearest(hits);
      assert h.target in objs;
    }
  }

  /** A ray meets something in the set exactly when some object of the set is on it. */
  lemma AnyHitIff(objs: seq<SceneObject>, ray: Ray)
    ensures Intersect(objs, ray) != [] <==> exists o :: o in objs && ray(o).Some?
  {
    var hits := Intersect(objs, ray);
    if hits != [] {
      assert hits[0] in hits;
    }
  }
}
