/**
 * `_valid_state`: the last check before a URL is built. A granule search
 * with a spatial filter must also name a collection; the other kinds accept
 * every state.
 */
module Validity {
  import opened Wrappers
  import opened OrderedDicts
  import opened QueryState

  /** The spatial keys a granule search checks; `circle` is not among them. */
  const SpatialKeys: seq<string> := ["point", "polygon", "bounding_box", "line"]

  /** The keys that limit a granule search to a collection. */
  const CollectionKeys: seq<string> := ["short_name", "entry_title"]

  /** `any(key in self.params for key in keys)`. */
  predicate AnyPresent(params: Dict<Value>, keys: seq<string>)
  {
    exists i :: 0 <= i < |keys| && keys[i] in Keys(params)
  }

  /** Each kind's `_valid_state`. */
  predicate ValidState(k: Kind, params: Dict<Value>)
    ensures !k.Granule? ==> ValidState(k, params)
    ensures AnyPresent(params, CollectionKeys) ==> ValidState(k, params)
    ensures !AnyPresent(params, SpatialKeys) ==> ValidState(k, params)
  {
    match k
    case Granule => !(AnyPresent(params, SpatialKeys) && !AnyPresent(params, CollectionKeys))
    case _ => true
  }

  /**
   * A state is refused exactly when it is a granule search holding one of
   * `point`, `polygon`, `bounding_box`, `line` and neither `short_name` nor
   * `entry_title`.
   */
  lemma InvalidIff(k: Kind, params: Dict<Value>)
    ensures !ValidState(k, params) <==>
      && k == Granule
      && ("point" in Keys(params) || "polygon" in Keys(params)
          || "bounding_box" in Keys(params) || "line" in Keys(params))
      && "short_name" !in Keys(params) && "entry_title" !in Keys(params)
  {
    var ks := Keys(params);
    if "point" in ks { assert SpatialKeys[0] in ks; }
    if "polygon" in ks { assert SpatialKeys[1] in ks; }
    if "bounding_box" in ks { assert SpatialKeys[2] in ks; }
    if "line" in ks { assert SpatialKeys[3] in ks; }
    if "short_name" in ks { assert CollectionKeys[0] in ks; }
    if "entry_title" in ks { assert CollectionKeys[1] in ks; }
  }

  /** A circle alone needs no collection filter: it is not one of the spatial keys. */
  lemma CircleAloneIsValid(k: Kind, center: string)
    ensures ValidState(k, [("circle", Str(center))])
  {
    InvalidIff(k, [("circle", Str(center))]);
    assert Keys([("circle", Str(center))]) == ["circle"];
  }

  /** A point alone is refused for granules and accepted for every other kind. */
  lemma PointAloneNeedsCollection(k: Kind, point: string)
    ensures ValidState(k, [("point", Str(point))]) <==> k != Granule
  {
    InvalidIff(k, [("point", Str(point))]);
    assert Keys([("point", Str(point))]) == ["point"];
  }

  /** Once `short_name` or `entry_title` is set, every granule state is valid. */
  lemma CollectionFilterMakesValid(k: Kind, params: Dict<Value>)
    requires "short_name" in Keys(params) || "entry_title" in Keys(params)
    ensures ValidState(k, params)
  {
    InvalidIff(k, params);
  }
}
