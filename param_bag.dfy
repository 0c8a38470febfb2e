/** The flat parameter dictionaries (`self.params`) of fractals and colouring algorithms,
    and the merge that their `set_params` performs. */
module ParamBag {

  /** A parameter value: the source stores Python bools, ints and floats. */
  datatype Value = VBool(b: bool) | VInt(i: int) | VReal(r: real)

  type Bag = map<string, Value>

  /** The number Python arithmetic sees (a bool is the int 0 or 1). */
  function AsReal(v: Value): real
  {
    match v
    case VBool(b) => if b then 1.0 else 0.0
    case VInt(i) => i as real
    case VReal(r) => r
  }

  /** Python truthiness of a parameter value, as used by `if is_julia:`. */
  predicate Truthy(v: Value)
  {
    match v
    case VBool(b) => b
    case VInt(i) => i != 0
    case VReal(r) => r != 0.0
  }

  /** The dictionary `set_params(updates)` leaves behind: only keys already present are
      overwritten, every other key of `updates` is ignored. */
  function Merge(params: Bag, updates: Bag): Bag
  {
    map k | k in params :: if k in updates then updates[k] else params[k]
  }

  /** `set_params` (mandelbrot_julia.py and coloring.py): walks the entries of `updates`
      and overwrites those whose key is already a parameter. */
  method MergeParams(params: Bag, updates: Bag) returns (merged: Bag)
    ensures merged == Merge(params, updates)
    ensures merged.Keys == params.Keys
    ensures forall k :: k in params && k in updates ==> merged[k] == updates[k]
    ensures forall k :: k in params && k !in updates ==> merged[k] == params[k]
  {
    merged := params;
    var remaining := updates.Keys;
    while remaining != {}
      invariant remaining <= updates.Keys
      invariant merged.Keys == params.Keys
      invariant forall k :: k in params ==>
        merged[k] == (if k in updates && k !in remaining then updates[k] else params[k])
      decreases |remaining|
    {
      var key :| key in remaining;
      if key in merged {
        merged := merged[key := updates[key]];
      }
      remaining := remaining - {key};
    }
  }

  /** Unknown keys never enter the dictionary, so `set_params` cannot add a parameter. */
  lemma MergeIgnoresUnknownKeys(params: Bag, updates: Bag, k: string)
    requires k in updates && k !in params
    ensures k !in Merge(params, updates)
    ensures Merge(params, updates).Keys == params.Keys
  {
  }

  /** Writing back what `get_params` returned changes nothing. */
  lemma MergeWithOwnCopy(params: Bag)
    ensures Merge(params, params) == params
  {
  }

  /** Applying the same updates twice is the same as applying them once. */
  lemma MergeIdempotent(params: Bag, updates: Bag)
    ensures Merge(Merge(params, updates), updates) == Merge(params, updates)
  {
  }
}
