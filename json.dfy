/**
 * The already-parsed JSON document, as Python's `json` module hands it to the
 * application, and the subscript chains (`doc['weather'][0]['astronomy']`)
 * that the decoder applies to it.
 */
module Json {
  import opened Wrappers

  /** A JSON value. Numbers keep their literal text; objects are dictionaries. */
  datatype Json =
    | Null
    | Bool(b: bool)
    | Num(literal: string)
    | Str(s: string)
    | Arr(items: seq<Json>)
    | Obj(fields: map<string, Json>)

  /** One subscript: `x['name']` or `x[index]`. */
  datatype Step = Key(name: string) | Idx(index: nat)

  /**
   * One subscript, `None` where Python raises: a missing key (KeyError), an
   * index past the end (IndexError), or a subscript the value does not
   * support (TypeError; an integer key on a dictionary is a KeyError, as JSON
   * keys are strings). Python would index a string to a one-character string;
   * every index in the decoder is followed by a key subscript, which fails on
   * a string, so failing at the index changes no outcome.
   */
  function Get(j: Json, step: Step): Option<Json> {
    match step
    case Key(k) => if j.Obj? && k in j.fields then Some(j.fields[k]) else None
    case Idx(i) => if j.Arr? && i < |j.items| then Some(j.items[i]) else None
  }

  /** A whole subscript chain, left to right; `None` as soon as one step fails. */
  function Follow(j: Json, path: seq<Step>): Option<Json>
    decreases |path|
  {
    if path == [] then Some(j)
    else match Get(j, path[0])
      case None => None
      case Some(k) => Follow(k, path[1..])
  }

  /** A chain whose value must be a Python `str` (it is concatenated with `+`). */
  function Text(j: Json, path: seq<Step>): Option<string> {
    match Follow(j, path)
    case Some(Str(s)) => Some(s)
    case _ => None
  }

  /** Following `rel` from wherever `root` leads: the chain `j[root...][rel...]` taken in two parts. */
  function Under(j: Json, root: seq<Step>, rel: seq<Step>): Option<Json> {
    match Follow(j, root)
    case None => None
    case Some(r) => Follow(r, rel)
  }

  /** `Under` for a chain whose value must be a Python `str`. */
  function TextUnder(j: Json, root: seq<Step>, rel: seq<Step>): Option<string> {
    match Follow(j, root)
    case None => None
    case Some(r) => Text(r, rel)
  }

  /** Following `p + q` is following `p`, then `q` from where `p` ended. */
  lemma {:induction false} FollowAppend(j: Json, p: seq<Step>, q: seq<Step>)
    ensures Follow(j, p + q) == Under(j, p, q)
    decreases |p|
  {
    if p == [] {
      assert p + q == q;
    } else {
      assert (p + q)[0] == p[0];
      assert (p + q)[1..] == p[1..] + q;
      match Get(j, p[0])
      case None =>
      case Some(k) => FollowAppend(k, p[1..], q);
    }
  }

  /** The `Text` form of `FollowAppend`. */
  lemma TextAppend(j: Json, p: seq<Step>, q: seq<Step>)
    ensures Text(j, p + q) == TextUnder(j, p, q)
  {
    FollowAppend(j, p, q);
  }
}
