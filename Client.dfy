/** The front end's request helpers: the placeholder response shown before any call,
    and the query string built from form fields. */
module Client {
  import opened Values
  import opened Text

  /** What the UI shows for a call: `error` is absent on a completed call. */
  datatype ApiResponse = ApiResponse(ok: bool, status: int, durationMs: int, data: Json, error: Option<string>)

  /** emptyResponse: a failed, never-sent call carrying only the message. */
  function EmptyResponse(message: string): (r: ApiResponse)
    ensures !r.ok && r.status == 0 && r.durationMs == 0 && r.data == JNull
    ensures r.error == Some(message)
  {
    ApiResponse(false, 0, 0, JNull, Some(message))
  }

  type Pair = (string, string)

  predicate HasKey(pairs: seq<Pair>, key: string) {
    exists i | 0 <= i < |pairs| :: pairs[i].0 == key
  }

  /** Object.entries of a record: no key twice. */
  predicate DistinctKeys(pairs: seq<Pair>) {
    forall i, j | 0 <= i < j < |pairs| :: pairs[i].0 != pairs[j].0
  }

  /** The entries buildQuery keeps, in input order, each with its trimmed value. */
  function Kept(params: seq<Pair>): seq<Pair> {
    if params == [] then []
    else
      var last := params[|params| - 1];
      Kept(params[..|params| - 1]) + (if Trim(last.1) != "" then [(last.0, Trim(last.1))] else [])
  }

  /** URLSearchParams.set: replaces the value of the first entry with that name and
      drops the later ones, or appends a new entry when there is none. */
  function SetParam(pairs: seq<Pair>, key: string, value: string): (r: seq<Pair>)
    ensures !HasKey(pairs, key) ==> r == pairs + [(key, value)]
    ensures (key, value) in r
  {
    if HasKey(pairs, key) then ReplaceFirst(pairs, key, value) else pairs + [(key, value)]
  }

  function ReplaceFirst(pairs: seq<Pair>, key: string, value: string): (r: seq<Pair>)
    requires HasKey(pairs, key)
    ensures (key, value) in r
  {
    if pairs[0].0 == key then [(key, value)] + WithoutKey(pairs[1..], key)
    else
      assert HasKey(pairs[1..], key) by {
        var i :| 0 <= i < |pairs| && pairs[i].0 == key;
        assert pairs[1..][i - 1].0 == key;
      }
      var rest := ReplaceFirst(pairs[1..], key, value);
      assert (key, value) in [pairs[0]] + rest;
      [pairs[0]] + rest
  }

  function WithoutKey(pairs: seq<Pair>, key: string): seq<Pair> {
    if pairs == [] then []
    else (if pairs[0].0 == key then [] else [pairs[0]]) + WithoutKey(pairs[1..], key)
  }

  /** URLSearchParams.toString: `name=value` pairs, each part form-encoded by
      `encode`, joined with `&`. */
  function Serialize(pairs: seq<Pair>, encode: string -> string): (s: string)
    ensures pairs != [] ==> |s| > 0
  {
    if pairs == [] then ""
    else
      var first := encode(pairs[0].0) + "=" + encode(pairs[0].1);
      if |pairs| == 1 then first else first + "&" + Serialize(pairs[1..], encode)
  }

  /** buildQuery: every entry whose value is not blank is set, trimmed, on an empty
      URLSearchParams; the result is `?` and the serialised pairs, or nothing when
      no entry was kept. */
  method BuildQuery(params: seq<Pair>, encode: string -> string) returns (query: string)
    requires DistinctKeys(params)
    ensures Kept(params) == [] ==> query == ""
    ensures Kept(params) != [] ==> query == "?" + Serialize(Kept(params), encode)
  {
    var search: seq<Pair> := [];
    var i := 0;
    while i < |params|
      invariant 0 <= i <= |params|
      invariant search == Kept(params[..i])
    {
      var key, value := params[i].0, params[i].1;
      BuildStep(params, i);
      if |Trim(value)| > 0 {
        search := SetParam(search, key, Trim(value));
      }
      i := i + 1;
    }
    assert params[..i] == params;
    var serialized := Serialize(search, encode);
    query := if |serialized| > 0 then "?" + serialized else "";
  }

  /** One more entry extends what is kept by that entry, trimmed, unless it is blank. */
  lemma KeptStep(params: seq<Pair>, i: nat)
    requires i < |params|
    ensures Kept(params[..i + 1])
         == Kept(params[..i]) + (if Trim(params[i].1) != "" then [(params[i].0, Trim(params[i].1))] else [])
  {
    assert params[..i + 1][..i] == params[..i];
  }

  /** Setting the next non-blank entry on what was kept so far keeps it too: its key
      is new, as the input's keys are distinct, so it is appended. */
  lemma BuildStep(params: seq<Pair>, i: nat)
    requires DistinctKeys(params) && i < |params|
    ensures Kept(params[..i + 1])
         == if |Trim(params[i].1)| > 0 then SetParam(Kept(params[..i]), params[i].0, Trim(params[i].1))
            else Kept(params[..i])
  {
    KeptStep(params, i);
    var key := params[i].0;
    forall m | 0 <= m < i ensures params[..i][m].0 != key {
      assert params[..i][m] == params[m];
    }
    KeptLacksAbsentKey(params[..i], key);
  }

  /** A key the input does not have is not among the kept keys either. */
  lemma {:induction false} KeptLacksAbsentKey(params: seq<Pair>, key: string)
    requires forall m | 0 <= m < |params| :: params[m].0 != key
    ensures !HasKey(Kept(params), key)
  {
    if params != [] {
      var init := params[..|params| - 1];
      KeptLacksAbsentKey(init, key);
    }
  }

  // ---------------------------------------------------------------------------
  // What is kept

  /** Kept distributes over concatenation: it keeps entries in input order. */
  lemma {:induction false} KeptAppend(a: seq<Pair>, b: seq<Pair>)
    ensures Kept(a + b) == Kept(a) + Kept(b)
    decreases |b|
  {
    if b == [] {
      assert a + b == a;
    } else {
      var b' := b[..|b| - 1];
      assert (a + b)[..|a + b| - 1] == a + b';
      KeptAppend(a, b');
    }
  }

  /** A single entry is kept, trimmed, exactly when its value is not blank. */
  lemma KeptOne(key: string, value: string)
    ensures Kept([(key, value)]) == if Trim(value) != "" then [(key, Trim(value))] else []
  {
    assert [(key, value)][..0] == [];
  }

  /** Every entry with a non-blank value is kept, with its trimmed value. */
  lemma NonBlankKept(params: seq<Pair>, i: nat)
    requires i < |params| && Trim(params[i].1) != ""
    ensures (params[i].0, Trim(params[i].1)) in Kept(params)
  {
    assert params == params[..i + 1] + params[i + 1..];
    KeptAppend(params[..i + 1], params[i + 1..]);
    KeptStep(params, i);
  }

  /** Every kept entry comes from an input entry with that key, whose trimmed value
      it carries and which is not blank. */
  lemma {:induction false} KeptFromInput(params: seq<Pair>, p: Pair)
    requires p in Kept(params)
    ensures exists i | 0 <= i < |params| :: params[i].0 == p.0 && Trim(params[i].1) == p.1 != ""
  {
    var init := params[..|params| - 1];
    var last := params[|params| - 1];
    if p in Kept(init) {
      KeptFromInput(init, p);
      var i :| 0 <= i < |init| && init[i].0 == p.0 && Trim(init[i].1) == p.1 != "";
      assert params[i] == init[i];
    } else {
      var n := |params| - 1;
      assert params[n].0 == p.0 && Trim(params[n].1) == p.1 != "";
    }
  }

  /** Every kept value is non-empty and has nothing left to trim. */
  lemma {:induction false} KeptValuesTrimmed(params: seq<Pair>)
    ensures forall p | p in Kept(params) :: p.1 != "" && Trim(p.1) == p.1
  {
    if params != [] {
      var init := params[..|params| - 1];
      var last := params[|params| - 1];
      KeptValuesTrimmed(init);
      TrimIdempotent(last.1);
    }
  }

  /** Nothing is kept from a form whose fields are all blank, so the query is empty. */
  lemma {:induction false} AllBlankKeepsNothing(params: seq<Pair>)
    requires forall i | 0 <= i < |params| :: Trim(params[i].1) == ""
    ensures Kept(params) == []
  {
    if params != [] {
      AllBlankKeepsNothing(params[..|params| - 1]);
    }
  }
}
