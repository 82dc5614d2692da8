/** Types shared by every module: the optional and failure wrappers and the
    JSON-like values that flow through configuration dictionaries. */
module Hub {

  datatype Option<+T> = None | Some(value: T) {
    function GetOr(default: T): T {
      match this
      case Some(v) => v
      case None => default
    }
  }

  /** Why an operation stopped.  `Forbidden` is the HTTP 403 the hub shows
      to the user; the others are Python exceptions the code does not catch. */
  datatype Error =
    | Forbidden
    | MissingKey(key: string)   // KeyError
    | NoSlash                   // ValueError from str.rindex
    | InvalidToken              // jwt.decode refused the ticket
    | InvalidKey                // InvalidKeyError from RSAAlgorithm.from_jwk

  datatype Result<+T> = Ok(value: T) | Err(error: Error)

  /** A JSON / xmltodict value as it appears in configuration dictionaries
      (volumes, overrides, security contexts). */
  datatype Json =
    | JNull
    | JBool(b: bool)
    | JInt(i: int)
    | JReal(r: real)
    | JStr(s: string)
    | JList(items: seq<Json>)
    | JObj(fields: map<string, Json>)

  /** Python truthiness of an optional string. */
  predicate Truthy(s: Option<string>) {
    s.Some? && s.value != ""
  }

  // Sequence identities, stated for any element type: proving them at a
  // concrete type of nested maps and lists costs the solver far more.

  lemma AppendEmpty<T>(s: seq<T>)
    ensures s + [] == s
  {
  }

  lemma AppendAssoc<T>(a: seq<T>, b: seq<T>, c: seq<T>)
    ensures (a + b) + c == a + (b + c)
  {
  }

  lemma SplitAround<T>(s: seq<T>, k: nat)
    requires k < |s|
    ensures s[..k] + [s[k]] + s[k + 1..] == s
  {
  }

  lemma SplitAt<T>(s: seq<T>, k: nat)
    requires k <= |s|
    ensures s[..k] + s[k..] == s
  {
  }

  lemma IndexAppend<T>(a: seq<T>, x: T, i: nat)
    requires i <= |a|
    ensures (a + [x])[i] == if i < |a| then a[i] else x
  {
  }
}
