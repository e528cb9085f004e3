/** Python values as the star-tracker core sees them: values decoded from JSON,
    Python truthiness, dictionary access, the exceptions the core raises, and the
    shape of a polling loop run over a finite sequence of replies. */
module PyValues {

  datatype Option<T> = None | Some(value: T) {
    function GetOr(default: T): T {
      if Some? then value else default
    }
  }

  datatype Result<T, E> = Ok(value: T) | Err(error: E)

  /** The exceptions the core raises or lets escape. */
  datatype PyError =
    | AttributeError            // `.get` called on None or on a non-dict
    | TypeError                 // len()/indexing/concatenation on the wrong type
    | KeyError
    | IndexError
    | IOError                   // a file that cannot be opened
    | JsonDecodeError           // `response.json()` on a body that is not JSON
    | ConversionError(reason: string)       // a failed str()/int()/float()/bool()/list()
    | RequestError(message: string)         // client.RequestError
    | LoginFailed(reply: Json)              // solver: "Login failed: {result}"
    | UploadFailed(reply: Json)             // solver: "Upload failed: {result}"
    | SystemExit(code: int)                 // sys.exit(code)

  /** A value produced by json.loads; Python None is Null.  Objects keep the
      insertion order of a Python dict. */
  datatype Json =
    | Null
    | Bool(b: bool)
    | Int(i: int)
    | Float(r: real)
    | Str(s: string)
    | Array(items: seq<Json>)
    | Object(fields: Dict)

  /** A Python dict from strings, as an association list in insertion order. */
  type Dict = seq<(string, Json)>

  /** Python truthiness: None, False, zero, and empty strings, lists and dicts are false. */
  predicate Truthy(v: Json) {
    match v
    case Null => false
    case Bool(b) => b
    case Int(i) => i != 0
    case Float(r) => r != 0.0
    case Str(s) => s != []
    case Array(a) => a != []
    case Object(f) => f != []
  }

  function Keys(d: Dict): set<string> {
    if d == [] then {} else {d[0].0} + Keys(d[1..])
  }

  predicate DistinctKeys(d: Dict) {
    forall i, j :: 0 <= i < j < |d| ==> d[i].0 != d[j].0
  }

  /** d.get(k): the value of the first entry with key k. */
  function Lookup(d: Dict, k: string): (r: Option<Json>)
    ensures r.Some? <==> k in Keys(d)
  {
    if d == [] then None
    else if d[0].0 == k then Some(d[0].1)
    else Lookup(d[1..], k)
  }

  /** d[k] = v: overwrites the value in place when k is a key, appends otherwise. */
  function Put(d: Dict, k: string, v: Json): (r: Dict)
    ensures Lookup(r, k) == Some(v)
    ensures forall k' :: k' != k ==> Lookup(r, k') == Lookup(d, k')
    ensures Keys(r) == Keys(d) + {k}
    ensures k in Keys(d) ==> |r| == |d|
    ensures k !in Keys(d) ==> r == d + [(k, v)]
  {
    if d == [] then [(k, v)]
    else if d[0].0 == k then
      assert ([(k, v)] + d[1..])[1..] == d[1..];
      [(k, v)] + d[1..]
    else
      var rest := Put(d[1..], k, v);
      assert ([d[0]] + rest)[1..] == rest;
      [d[0]] + rest
  }

  /** d.update(e): every entry of e, in order, assigned into d. */
  function Update(d: Dict, e: Dict): (r: Dict)
    ensures Keys(r) == Keys(d) + Keys(e)
    ensures forall k :: k !in Keys(e) ==> Lookup(r, k) == Lookup(d, k)
    decreases |e|
  {
    if e == [] then d else Update(Put(d, e[0].0, e[0].1), e[1..])
  }

  lemma {:induction false} KeysIndex(d: Dict, k: string)
    ensures k in Keys(d) <==> exists i :: 0 <= i < |d| && d[i].0 == k
  {
    if d != [] {
      KeysIndex(d[1..], k);
      if exists i :: 0 <= i < |d| && d[i].0 == k {
        var i :| 0 <= i < |d| && d[i].0 == k;
        if i > 0 {
          assert d[1..][i - 1] == d[i];
        }
      }
    }
  }

  /** Adding a new key to a dict with distinct keys keeps them distinct. */
  lemma PutFreshDistinct(d: Dict, k: string, v: Json)
    requires DistinctKeys(d) && k !in Keys(d)
    ensures DistinctKeys(Put(d, k, v))
  {
    KeysIndex(d, k);
  }

  /** After d.update(e) with a dict e, every key of e maps to its value in e. */
  lemma {:induction false} UpdateLookupIn(d: Dict, e: Dict, k: string)
    requires DistinctKeys(e) && k in Keys(e)
    ensures Lookup(Update(d, e), k) == Lookup(e, k)
    decreases |e|
  {
    var rest := e[1..];
    assert DistinctKeys(rest) by {
      forall i, j | 0 <= i < j < |rest| ensures rest[i].0 != rest[j].0 {
        assert rest[i] == e[i + 1] && rest[j] == e[j + 1];
      }
    }
    if e[0].0 == k {
      KeysIndex(rest, k);
    } else {
      UpdateLookupIn(Put(d, e[0].0, e[0].1), rest, k);
    }
  }

  /** Lookup in a dict written out with two or three entries. */
  lemma LookupPair(a: (string, Json), b: (string, Json), k: string)
    ensures Lookup([a, b], k) == if a.0 == k then Some(a.1) else if b.0 == k then Some(b.1) else None
    ensures DistinctKeys([a, b]) <==> a.0 != b.0
  {
    assert [a, b][1..] == [b];
  }

  lemma LookupTriple(a: (string, Json), b: (string, Json), c: (string, Json), k: string)
    ensures Lookup([a, b, c], k)
            == if a.0 == k then Some(a.1) else if b.0 == k then Some(b.1) else if c.0 == k then Some(c.1) else None
    ensures DistinctKeys([a, b, c]) <==> a.0 != b.0 && a.0 != c.0 && b.0 != c.0
  {
    assert [a, b, c][1..] == [b, c];
    LookupPair(b, c, k);
  }

  lemma KeysPair(a: (string, Json), b: (string, Json))
    ensures Keys([a, b]) == {a.0, b.0}
  {
    assert [a, b][1..] == [b] && [b][1..] == [];
    assert Keys([b]) == {b.0};
  }

  lemma KeysTriple(a: (string, Json), b: (string, Json), c: (string, Json))
    ensures Keys([a, b, c]) == {a.0, b.0, c.0}
  {
    assert [a, b, c][1..] == [b, c];
    KeysPair(b, c);
  }

  /** d.pop(k) for a key of d: the dict without its entry for k. */
  function Remove(d: Dict, k: string): (r: Dict)
    ensures forall k' :: k' != k ==> Lookup(r, k') == Lookup(d, k')
    ensures Keys(r) <= Keys(d)
    ensures |r| <= |d|
  {
    if d == [] then []
    else if d[0].0 == k then d[1..]
    else [d[0]] + Remove(d[1..], k)
  }

  /** value[k] for a string key: KeyError when a dict lacks it, TypeError
      when the value is not a dict. */
  function GetItem(v: Json, k: string): (r: Result<Json, PyError>)
    ensures r.Ok? <==> v.Object? && k in Keys(v.fields)
    ensures r.Ok? ==> Lookup(v.fields, k) == Some(r.value)
  {
    match v
    case Object(f) => if k in Keys(f) then Ok(Lookup(f, k).value) else Err(KeyError)
    case _ => Err(TypeError)
  }

  /** value.get(k, default): AttributeError unless the value is a dict. */
  function DictGet(v: Json, k: string, default: Json): (r: Result<Json, PyError>)
    ensures r.Err? <==> !v.Object?
    ensures v.Object? && k !in Keys(v.fields) ==> r == Ok(default)
  {
    if v.Object? then Ok(Lookup(v.fields, k).GetOr(default)) else Err(AttributeError)
  }

  /** value[0] on a truthy value: a list's first item, a string's first character;
      a dict decoded from JSON has only string keys, so 0 is never one of them. */
  function Index0(v: Json): Result<Json, PyError> {
    match v
    case Array(a) => if a == [] then Err(IndexError) else Ok(a[0])
    case Str(s) => if s == [] then Err(IndexError) else Ok(Str([s[0]]))
    case Object(_) => Err(KeyError)
    case _ => Err(TypeError)
  }

  /** One pass of a polling loop: it stops with a value, asks for another
      round, or raises. */
  datatype Step<T> = Done(value: T) | Pending | Failed(error: PyError)

  /** How a polling loop over a finite sequence of replies ended: after `polls`
      replies with a value or an exception, or with every reply still pending
      (where the program itself would sleep and poll again). */
  datatype Poll<T> = Finished(value: T, polls: nat) | StillPending | Aborted(error: PyError, polls: nat)

  ghost predicate AllPending<T>(steps: seq<Step<T>>) {
    forall i :: 0 <= i < |steps| ==> steps[i].Pending?
  }

  /** p is what a loop that stops at its first non-pending step yields. */
  ghost predicate FirstDecisive<T>(steps: seq<Step<T>>, p: Poll<T>) {
    match p
    case Finished(v, n) => 1 <= n <= |steps| && steps[n - 1] == Done(v) && AllPending(steps[..n - 1])
    case Aborted(e, n) => 1 <= n <= |steps| && steps[n - 1] == Failed(e) && AllPending(steps[..n - 1])
    case StillPending => AllPending(steps)
  }

  /** The outcome with one more pending poll in front. */
  function Later<T>(p: Poll<T>): Poll<T> {
    match p
    case Finished(v, n) => Finished(v, n + 1)
    case Aborted(e, n) => Aborted(e, n + 1)
    case StillPending => StillPending
  }

  /** The outcome of a loop that stops at its first non-pending step. */
  function FirstOutcome<T>(steps: seq<Step<T>>): (p: Poll<T>)
    ensures FirstDecisive(steps, p)
  {
    if steps == [] then StillPending
    else
      match steps[0]
      case Done(v) => assert steps[..0] == []; Finished(v, 1)
      case Failed(e) => assert steps[..0] == []; Aborted(e, 1)
      case Pending =>
        var rest := FirstOutcome(steps[1..]);
        LaterDecisive(steps, rest);
        Later(rest)
  }

  lemma LaterDecisive<T>(steps: seq<Step<T>>, p: Poll<T>)
    requires steps != [] && steps[0].Pending? && FirstDecisive(steps[1..], p)
    ensures FirstDecisive(steps, Later(p))
  {
    match p
    case Finished(v, n) =>
      assert steps[..n] == [steps[0]] + steps[1..][..n - 1];
    case Aborted(e, n) =>
      assert steps[..n] == [steps[0]] + steps[1..][..n - 1];
    case StillPending =>
      assert steps == [steps[0]] + steps[1..];
  }

  /** A polling loop's outcome is determined by its steps: two outcomes that
      both stop at the first decisive step are the same. */
  lemma {:induction false} FirstDecisiveUnique<T>(steps: seq<Step<T>>, p: Poll<T>, q: Poll<T>)
    requires FirstDecisive(steps, p) && FirstDecisive(steps, q)
    ensures p == q
  {
  }
}
