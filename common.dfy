/** Optional values: an absent JavaScript field, a request that yielded nothing. */
module Wrappers {
  datatype Option<+T> = None | Some(value: T)
}

/** The signed-in user as the client sees it, and where each role lands. */
module Session {

  datatype User = User(role: string)

  /** `role === 'admin' ? '/admin' : '/'`, shared by the registration page
      (src/pages/Register.js) and the public-route gate (src/App.js). */
  function LandingPath(role: string): (path: string)
    ensures path == "/admin" <==> role == "admin"
    ensures path != "/admin" ==> path == "/"
  {
    if role == "admin" then "/admin" else "/"
  }
}

/** Route patterns as both routers in the system read them: a literal
    segment matches itself, a `:name` parameter matches any non-empty segment.
    Paths arrive already split at '/'. */
module Paths {
  import opened Wrappers

  datatype Segment = Lit(text: string) | Param(name: string)

  predicate SegmentMatches(pattern: Segment, segment: string) {
    match pattern
    case Lit(text) => segment == text
    case Param(_) => segment != ""
  }

  predicate Matches(pattern: seq<Segment>, path: seq<string>) {
    |pattern| == |path| && forall i | 0 <= i < |path| :: SegmentMatches(pattern[i], path[i])
  }

  /** The value bound to parameter `name`, as `req.params[name]`. */
  function Bound(pattern: seq<Segment>, path: seq<string>, name: string): (r: Option<string>)
    requires Matches(pattern, path)
    ensures r.Some? ==> r.value != "" && exists i | 0 <= i < |pattern| ::
      && pattern[i] == Param(name) && r.value == path[i]
      && forall j | 0 <= j < i :: pattern[j] != Param(name)
    ensures r.None? <==> Param(name) !in pattern
  {
    if pattern == [] then None
    else if pattern[0] == Param(name) then
      assert SegmentMatches(pattern[0], path[0]);
      Some(path[0])
    else
      assert Matches(pattern[1..], path[1..]) by {
        forall i | 0 <= i < |path| - 1 ensures SegmentMatches(pattern[1..][i], path[1..][i]) {
          assert SegmentMatches(pattern[i + 1], path[i + 1]);
        }
      }
      var r := Bound(pattern[1..], path[1..], name);
      assert r.Some? ==> exists i | 0 <= i < |pattern| ::
        && pattern[i] == Param(name) && r.value == path[i]
        && forall j | 0 <= j < i :: pattern[j] != Param(name) by {
        if r.Some? {
          var i :| 0 <= i < |pattern[1..]| && pattern[1..][i] == Param(name) && r.value == path[1..][i]
            && forall j | 0 <= j < i :: pattern[1..][j] != Param(name);
          assert pattern[i + 1] == Param(name) && r.value == path[i + 1];
          forall j | 0 <= j < i + 1 ensures pattern[j] != Param(name) {
            if j > 0 { assert pattern[j] == pattern[1..][j - 1]; }
          }
        }
      }
      assert Param(name) in pattern ==> Param(name) in pattern[1..];
      r
  }
}

/** A line of the client cart as the pages read it. The cart itself lives in
    a context provider that is not part of this model; only the fields the
    pages read are kept. Prices are integer cents. */
module CartLines {

  datatype CartLine = CartLine(
    dbId: string,      // `_id`, "" when absent
    localId: string,   // `id`, "" when absent
    name: string,
    image: string,
    category: string,
    price: int,
    quantity: int)

  /** `item._id || item.id`: the database id, falling back to the local id
      when the database id is absent or empty. */
  function ProductRef(line: CartLine): (r: string)
    ensures line.dbId != "" ==> r == line.dbId
    ensures line.dbId == "" ==> r == line.localId
  {
    if line.dbId != "" then line.dbId else line.localId
  }
}
