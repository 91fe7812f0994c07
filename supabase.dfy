/**
 * The shared database client: `getSupabase` reads the project URL and the service key
 * from the environment, refuses a pair that belongs to two different Supabase projects,
 * and keeps the client it creates for every later call.
 *
 * The project a URL names is read with the pattern `https://([^.]+)\.supabase\.co`; the
 * project a service key names is the `ref` field of the key's middle, base64-encoded
 * JSON segment. Decoding and parsing that segment is a parameter, `payloadRef`, which
 * gives the `ref` field's text or `None` when decoding, parsing or the field fails.
 * `createClient` is represented by the pair it is given.
 */
module Supabase {
  import opened Wrappers
  import opened Text

  const Https: string := "https://"
  const Domain: string := ".supabase.co"

  // ---------------------------------------------------------------------
  // the project named by the URL

  /** `https://<ref>.supabase.co` occurs at `p`, `ref` being a non-empty run without `.`. */
  predicate NamesProjectAt(url: string, p: int, ref: string) {
    ref != [] && '.' !in ref && OccursAt(url, Https + ref + Domain, p)
  }

  /** The longest run of characters other than `.` at the start of `s`: what the greedy
      `[^.]+` takes. */
  function NonDotRun(s: string): (r: string)
    ensures |r| <= |s| && r == s[..|r|]
    ensures '.' !in r
    ensures |r| == |s| || s[|r|] == '.'
  {
    if s != [] && s[0] != '.' then [s[0]] + NonDotRun(s[1..]) else []
  }

  /** What the pattern captures when tried at position `p`: `[^.]+` cannot give back a
      character and still be followed by `.`, so only the longest run can match. */
  function RefAt(url: string, p: nat): (r: Option<string>)
    ensures r.Some? ==> NamesProjectAt(url, p, r.value)
  {
    if !OccursAt(url, Https, p) then None
    else
      var run := NonDotRun(url[p + |Https|..]);
      if run != [] && OccursAt(url, Domain, p + |Https| + |run|) then
        assert url[p..p + |Https + run + Domain|] == Https + run + Domain by {
          assert url[p..p + |Https|] == Https;
          assert url[p + |Https|..p + |Https| + |run|] == run;
          assert url[p + |Https| + |run|..p + |Https| + |run| + |Domain|] == Domain;
        }
        Some(run)
      else None
  }

  /** At a position where the URL names a project, the pattern captures that project. */
  lemma RefAtNamed(url: string, p: nat, ref: string)
    requires NamesProjectAt(url, p, ref)
    ensures RefAt(url, p) == Some(ref)
  {
    var whole := Https + ref + Domain;
    assert url[p..p + |whole|] == whole;
    assert url[p..p + |Https|] == Https by { assert whole[..|Https|] == Https; }
    var tail := url[p + |Https|..];
    assert tail[..|ref|] == ref by { assert whole[|Https|..|Https| + |ref|] == ref; }
    assert tail[|ref|] == '.' by { assert whole[|Https| + |ref|] == Domain[0]; }
    NonDotRunStops(tail, |ref|);
    assert url[p + |Https| + |ref|..p + |Https| + |ref| + |Domain|] == Domain by {
      assert whole[|Https| + |ref|..] == Domain;
    }
  }

  lemma {:induction false} NonDotRunStops(s: string, n: nat)
    requires n < |s| && s[n] == '.' && '.' !in s[..n]
    ensures NonDotRun(s) == s[..n]
  {
    if n > 0 {
      assert s[0] in s[..n];
      assert s[1..][..n - 1] == s[1..n];
      assert '.' !in s[1..][..n - 1] by { assert forall c :: c in s[1..n] ==> c in s[..n]; }
      NonDotRunStops(s[1..], n - 1);
    }
  }

  /** The first position at or after `from` where the pattern matches. */
  function FirstMatch(url: string, from: nat): (r: Option<nat>)
    decreases |url| - from
    ensures r.Some? ==> from <= r.value && RefAt(url, r.value).Some?
    ensures r.Some? ==> forall q :: from <= q < r.value ==> RefAt(url, q).None?
    ensures r.None? ==> forall q: nat :: from <= q ==> RefAt(url, q).None?
  {
    if from > |url| then
      assert forall q: nat :: from <= q ==> RefAt(url, q).None? by {
        forall q: nat | from <= q ensures RefAt(url, q).None? {
          NoMatchPastEnd(url, q);
        }
      }
      None
    else if RefAt(url, from).Some? then Some(from)
    else FirstMatch(url, from + 1)
  }

  /** No match starts after the end of the URL. */
  lemma NoMatchPastEnd(url: string, q: nat)
    requires q > |url|
    ensures RefAt(url, q).None?
  {
    assert !OccursAt(url, Https, q);
  }

  /** `getProjectRefFromUrl`: the capture of the leftmost match, `null` without one. */
  function ProjectRefFromUrl(url: string): (r: Option<string>)
    ensures r.Some? ==> exists p :: NamesProjectAt(url, p, r.value)
    ensures r.None? ==> forall p: nat, ref :: !NamesProjectAt(url, p, ref)
  {
    match FirstMatch(url, 0)
    case None =>
      assert forall p: nat, ref :: !NamesProjectAt(url, p, ref) by {
        forall p: nat, ref | NamesProjectAt(url, p, ref) ensures false {
          RefAtNamed(url, p, ref);
        }
      }
      None
    case Some(p) => RefAt(url, p)
  }

  /** The leftmost `https://<ref>.supabase.co` in the URL gives its project. */
  lemma UrlRefIsLeftmost(url: string, p: nat, ref: string)
    requires NamesProjectAt(url, p, ref)
    requires forall q: nat, other :: q < p ==> !NamesProjectAt(url, q, other)
    ensures ProjectRefFromUrl(url) == Some(ref)
  {
    RefAtNamed(url, p, ref);
    var m := FirstMatch(url, 0);
    assert m.Some?;
  }

  /** A project URL as Supabase hands it out names its project. */
  lemma ProjectUrl(ref: string, rest: string)
    requires ref != [] && '.' !in ref
    ensures ProjectRefFromUrl(Https + ref + Domain + rest) == Some(ref)
  {
    var url := Https + ref + Domain + rest;
    assert url[0..|Https + ref + Domain|] == Https + ref + Domain;
    UrlRefIsLeftmost(url, 0, ref);
  }

  // ---------------------------------------------------------------------
  // the project named by the service key

  /** `getProjectRefFromKey`: the second `.`-separated segment, when there is one and it
      is not empty, decoded; an empty `ref` counts as none. */
  function ProjectRefFromKey(key: string, payloadRef: string -> Option<string>): (r: Option<string>)
    ensures r.Some? ==> r.value != []
    ensures var parts := Split(key, '.');
            (|parts| < 2 || parts[1] == []) ==> r.None?
  {
    var parts := Split(key, '.');
    if |parts| < 2 || parts[1] == [] then None else OrNull(payloadRef(parts[1]))
  }

  /** A key of the form `header.payload.signature` names the project its payload names. */
  lemma KeyOfJwt(header: string, payload: string, signature: string, payloadRef: string -> Option<string>)
    requires '.' !in header && '.' !in payload && payload != []
    ensures ProjectRefFromKey(header + "." + payload + "." + signature, payloadRef) == OrNull(payloadRef(payload))
  {
    var key := header + "." + payload + "." + signature;
    assert key == header + ['.'] + (payload + ['.'] + signature);
    SplitAfterHead(header, '.', payload + ['.'] + signature);
    SplitAfterHead(payload, '.', signature);
  }

  // ---------------------------------------------------------------------
  // creating the client

  /** What `createClient(url, key, …)` is given. */
  datatype Client = Client(url: string, key: string)

  const MissingUrl: string := "Missing SUPABASE_URL environment variable"
  const MissingKey: string := "Missing SUPABASE_SERVICE_KEY environment variable"

  /** Both the URL and the key name a project, and the projects differ. */
  predicate Mismatch(urlRef: Option<string>, keyRef: Option<string>) {
    urlRef.Some? && keyRef.Some? && urlRef.value != keyRef.value
  }

  function MismatchMessage(urlRef: string, keyRef: string): string {
    "Supabase URL and service key mismatch!\n" + "  URL project: " + urlRef + "\n" + "  Key project: " + keyRef + "\n"
    + "Check if a shell environment variable is overriding your .env.local file."
  }

  /** The checks `getSupabase` makes before it creates a client, in order. */
  function Connect(url: Option<string>, key: Option<string>, payloadRef: string -> Option<string>): (r: Result<Client>)
    ensures r.Success? ==> Given(url) && Given(key) && r.value == Client(url.value, key.value) && Checked(r.value, payloadRef)
  {
    if !Given(url) then Failure(MissingUrl)
    else if !Given(key) then Failure(MissingKey)
    else
      var urlRef := ProjectRefFromUrl(url.value);
      var keyRef := ProjectRefFromKey(key.value, payloadRef);
      if Mismatch(urlRef, keyRef) then Failure(MismatchMessage(urlRef.value, keyRef.value))
      else Success(Client(url.value, key.value))
  }

  /** A client made from a URL and a key that are both set and do not name two
      different projects. */
  predicate Checked(c: Client, payloadRef: string -> Option<string>) {
    c.url != [] && c.key != [] && !Mismatch(ProjectRefFromUrl(c.url), ProjectRefFromKey(c.key, payloadRef))
  }

  /** A missing URL is reported before the key is looked at; a missing key next; a
      mismatch only when both sides name a project and the two differ; any other pair
      gives a client. */
  lemma ConnectOrder(url: Option<string>, key: Option<string>, payloadRef: string -> Option<string>)
    ensures var r := Connect(url, key, payloadRef);
            && (!Given(url) ==> r == Failure(MissingUrl))
            && (Given(url) && !Given(key) ==> r == Failure(MissingKey))
            && (Given(url) && Given(key) ==>
                  var urlRef := ProjectRefFromUrl(url.value);
                  var keyRef := ProjectRefFromKey(key.value, payloadRef);
                  && (r.Failure? <==> Mismatch(urlRef, keyRef))
                  && (r.Failure? ==> r.error == MismatchMessage(urlRef.value, keyRef.value)))
  {
  }

  /** The URL and a JWT key of the same project give a client; so does a key whose
      payload names no project. */
  lemma SameProjectConnects(ref: string, rest: string, header: string, payload: string, signature: string,
                            payloadRef: string -> Option<string>)
    requires ref != [] && '.' !in ref
    requires '.' !in header && '.' !in payload && payload != []
    requires payloadRef(payload) == Some(ref) || payloadRef(payload).None?
    ensures Connect(Some(Https + ref + Domain + rest), Some(header + "." + payload + "." + signature), payloadRef)
         == Success(Client(Https + ref + Domain + rest, header + "." + payload + "." + signature))
  {
    ProjectUrl(ref, rest);
    KeyOfJwt(header, payload, signature, payloadRef);
  }

  /** The module-level `_supabase` cache and the `getSupabase` that fills it. */
  class SupabaseHolder {
    const payloadRef: string -> Option<string>
    var cached: Option<Client>

    /** A cached client passed the checks. */
    predicate Valid()
      reads this
    {
      cached.Some? ==> Checked(cached.value, payloadRef)
    }

    /** `let _supabase = null`. */
    constructor(payloadRef: string -> Option<string>)
      ensures this.payloadRef == payloadRef && cached == None && Valid()
    {
      this.payloadRef := payloadRef;
      cached := None;
    }

    /** `getSupabase()` with the environment's `SUPABASE_URL` and `SUPABASE_SERVICE_KEY`:
        a cached client is returned as it is, whatever the environment now says;
        otherwise the checks run and a client that passes them is cached. */
    method GetSupabase(url: Option<string>, key: Option<string>) returns (r: Result<Client>)
      requires Valid()
      modifies this
      ensures Valid()
      ensures old(cached).Some? ==> r == Success(old(cached).value) && cached == old(cached)
      ensures old(cached).None? ==> r == Connect(url, key, payloadRef)
      ensures old(cached).None? ==> cached == if r.Success? then Some(r.value) else None
      ensures r.Success? ==> Checked(r.value, payloadRef)
    {
      if cached.Some? {
        return Success(cached.value);
      }
      r := Connect(url, key, payloadRef);
      if r.Success? {
        cached := Some(r.value);
      }
    }
  }
}
