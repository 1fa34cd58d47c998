/** Decoded JWT claim sets, as the `/get-identity` handler receives them after
    both tokens have been decoded. */
module Claims {

  datatype Option<T> = None | Some(value: T)

  /** A claim value is either a scalar string or an ordered list of strings. */
  datatype ClaimValue = Str(s: string) | Strs(items: seq<string>)

  /** A decoded token payload: claim name to claim value. */
  type ClaimSet = map<string, ClaimValue>

  /** The claim that carries the user name in both tokens. */
  const UsernameClaim: string := "username"

  /** The empty string and the empty list: values no scenario of the handler
      exercises, so the contract says nothing about tokens that carry them. */
  predicate Blank(v: ClaimValue) {
    v == Str("") || v == Strs([])
  }

  /** `key` is carried by `c` with a value that is not blank. */
  predicate Carries(c: ClaimSet, key: string) {
    key in c && !Blank(c[key])
  }

  /** The value of `key` in the first claim set of `tokens` that has it;
      `tokens` lists the claim sets from the most to the least authoritative.
      The handler's list is always `[id, access]`: the identity token, then
      the access token. */
  function FirstWith(tokens: seq<ClaimSet>, key: string): (r: Option<ClaimValue>)
    ensures r.None? <==> forall i :: 0 <= i < |tokens| ==> key !in tokens[i]
    ensures r.Some? ==> exists i :: 0 <= i < |tokens| && key in tokens[i] && tokens[i][key] == r.value
                                  && forall j :: 0 <= j < i ==> key !in tokens[j]
  {
    if |tokens| == 0 then None
    else if key in tokens[0] then Some(tokens[0][key])
    else FirstWith(tokens[1..], key)
  }

  /** All claims of `tokens` in one map; a key several of them carry takes
      the value of the most authoritative one. */
  function Layered(tokens: seq<ClaimSet>): (m: ClaimSet)
    ensures forall k :: FirstWith(tokens, k) == (if k in m then Some(m[k]) else None)
  {
    if |tokens| == 0 then map[] else Layered(tokens[1..]) + tokens[0]
  }

}
