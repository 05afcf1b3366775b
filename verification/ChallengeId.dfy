/** The challenge id: a keyed hash of seven fields joined by '|'. */
module ChallengeId {
  import opened Text
  import opened Base64Url
  import opened Headers

  /** The echo of a challenge in a credential: everything but the description. */
  datatype ChallengeEcho = ChallengeEcho(
    id: string,
    realm: string,
    methodName: string,
    intent: string,
    request: string,
    expires: Option<string>,
    digest: Option<string>,
    correlation: Option<string>)

  function ToEcho(c: PaymentChallenge): (e: ChallengeEcho)
    ensures e.id == c.id && e.realm == c.realm && e.expires == c.expires
  {
    ChallengeEcho(c.id, c.realm, c.methodName, c.intent, c.request, c.expires, c.digest, c.correlation)
  }

  function OrEmpty(o: Option<string>): (s: string)
    ensures o.Some? ==> s == o.value
    ensures o.None? ==> s == ""
  {
    if o.Some? then o.value else ""
  }

  /** The fields of an echo that its id covers, besides the realm. */
  function Echoed(e: ChallengeEcho): seq<string> {
    [e.methodName, e.intent, e.request, OrEmpty(e.expires), OrEmpty(e.digest), OrEmpty(e.correlation)]
  }

  /** The seven hashed fields; `realm` is the server's own. */
  function Hashed(realm: string, e: ChallengeEcho): seq<string> {
    [realm] + Echoed(e)
  }

  function Join(fields: seq<string>): string {
    if fields == [] then "" else if |fields| == 1 then fields[0] else fields[0] + "|" + Join(fields[1..])
  }

  /** A keyed hash of 32 octets. */
  type Mac = (string, string) -> Octets

  function ComputeId(mac: Mac, key: string, realm: string, e: ChallengeEcho): string {
    Encode(mac(key, Join(Hashed(realm, e))))
  }

  /** The hash input written out. */
  function Preimage(realm: string, e: ChallengeEcho): string {
    realm + "|" + e.methodName + "|" + e.intent + "|" + e.request + "|" + OrEmpty(e.expires) + "|"
    + OrEmpty(e.digest) + "|" + OrEmpty(e.correlation)
  }

  lemma PreimageText(realm: string, e: ChallengeEcho)
    ensures Join(Hashed(realm, e)) == Preimage(realm, e)
  {
    hide Join;
    var x0, x1, x2 := OrEmpty(e.correlation), OrEmpty(e.digest), OrEmpty(e.expires);
    JoinOne(x0);
    JoinHead(x1, [x0]);
    JoinHead(x2, [x1, x0]);
    JoinHead(e.request, [x2, x1, x0]);
    JoinHead(e.intent, [e.request, x2, x1, x0]);
    JoinHead(e.methodName, [e.intent, e.request, x2, x1, x0]);
    JoinHead(realm, Echoed(e));
    assert [x1] + [x0] == [x1, x0] && [x2] + [x1, x0] == [x2, x1, x0];
    assert [e.request] + [x2, x1, x0] == [e.request, x2, x1, x0];
    assert [e.intent] + [e.request, x2, x1, x0] == [e.intent, e.request, x2, x1, x0];
    assert [e.methodName] + [e.intent, e.request, x2, x1, x0] == Echoed(e);
    Flattens(realm, e.methodName, e.intent, e.request, x2, x1, x0);
  }

  lemma Flattens(a: string, b: string, c: string, d: string, e: string, f: string, g: string)
    ensures a + "|" + (b + "|" + (c + "|" + (d + "|" + (e + "|" + (f + "|" + g)))))
            == a + "|" + b + "|" + c + "|" + d + "|" + e + "|" + f + "|" + g
  {
    var tail := f + "|" + g;
    Regroup(e + "|", f + "|", g);
    Regroup(d + "|", e + "|", tail);
    Regroup(c + "|", d + "|", e + "|" + tail);
    Regroup(b + "|", c + "|", d + "|" + (e + "|" + tail));
    Regroup(a + "|", b + "|", c + "|" + (d + "|" + (e + "|" + tail)));
  }

  lemma JoinOne(s: string)
    ensures Join([s]) == s
  {
  }

  /** A challenge checked against its own realm. */
  predicate Verifies(mac: Mac, key: string, c: PaymentChallenge) {
    c.id == ComputeId(mac, key, c.realm, ToEcho(c))
  }

  lemma VerifiesMeans(mac: Mac, key: string, c: PaymentChallenge)
    ensures Verifies(mac, key, c) <==>
            c.id == Encode(mac(key, c.realm + "|" + c.methodName + "|" + c.intent + "|" + c.request + "|"
                                    + OrEmpty(c.expires) + "|" + OrEmpty(c.digest) + "|" + OrEmpty(c.correlation)))
  {
    hide Join, Encode;
    PreimageText(c.realm, ToEcho(c));
  }

  // ---------- Injectivity ----------

  function Pipes(s: string): nat {
    if s == "" then 0 else (if s[0] == '|' then 1 else 0) + Pipes(s[1..])
  }

  lemma {:induction false} PipesAppend(a: string, b: string)
    ensures Pipes(a + b) == Pipes(a) + Pipes(b)
  {
    if a == "" {
      assert a + b == b;
    } else {
      assert (a + b)[1..] == a[1..] + b;
      PipesAppend(a[1..], b);
    }
  }

  function PipesIn(fields: seq<string>): nat {
    if fields == [] then 0 else Pipes(fields[0]) + PipesIn(fields[1..])
  }

  /** The joined text has one pipe per join besides those inside the fields. */
  lemma {:induction false} PipesOfJoin(fields: seq<string>)
    requires fields != []
    ensures Pipes(Join(fields)) == |fields| - 1 + PipesIn(fields)
  {
    if |fields| > 1 {
      PipesAppend(fields[0] + "|", Join(fields[1..]));
      PipesAppend(fields[0], "|");
      assert "|"[1..] == "";
      PipesOfJoin(fields[1..]);
    } else {
      assert fields[1..] == [];
    }
  }

  lemma {:induction false} NoPipes(s: string)
    ensures Pipes(s) == 0 <==> '|' !in s
  {
    if s == "" {
    } else {
      NoPipes(s[1..]);
      assert s == [s[0]] + s[1..];
    }
  }

  lemma SameFirst(a: string, x: string, b: string, y: string)
    requires '|' !in a && '|' !in b && a + "|" + x == b + "|" + y
    ensures a == b && x == y
  {
    var s := a + "|" + x;
    assert s[..|a|] == a && s[|a|..] == "|" + x;
    FirstIndexAt(s, '|', |a|);
    assert s[..|b|] == b && s[|b|..] == "|" + y;
    FirstIndexAt(s, '|', |b|);
    assert s[|a| + 1..] == x && s[|b| + 1..] == y;
  }

  lemma {:induction false} JoinInjective(fs: seq<string>, gs: seq<string>)
    requires |fs| == |gs| && PipesIn(fs) == 0 && PipesIn(gs) == 0 && Join(fs) == Join(gs)
    ensures fs == gs
  {
    if |fs| == 1 {
      assert fs == [fs[0]] && gs == [gs[0]];
    } else if |fs| > 1 {
      NoPipes(fs[0]);
      NoPipes(gs[0]);
      SameFirst(fs[0], Join(fs[1..]), gs[0], Join(gs[1..]));
      JoinInjective(fs[1..], gs[1..]);
      assert fs == [fs[0]] + fs[1..] && gs == [gs[0]] + gs[1..];
    }
  }

  ghost predicate PipeFree(fields: seq<string>) {
    forall i | 0 <= i < |fields| :: '|' !in fields[i]
  }

  lemma {:induction false} PipeFreeCounts(fields: seq<string>)
    ensures PipeFree(fields) <==> PipesIn(fields) == 0
  {
    if fields == [] {
    } else {
      PipeFreeCounts(fields[1..]);
      NoPipes(fields[0]);
      assert fields == [fields[0]] + fields[1..];
    }
  }

  lemma JoinOfPipeFree(fs: seq<string>, gs: seq<string>)
    requires fs != [] && |fs| == |gs| && PipeFree(fs) && Join(fs) == Join(gs)
    ensures fs == gs
  {
    PipesOfJoin(fs);
    PipesOfJoin(gs);
    PipeFreeCounts(fs);
    JoinInjective(fs, gs);
  }

  /** Where a field has a pipe, the text on one side of it can move into the neighbouring field. */
  lemma {:induction false} Collides(fs: seq<string>) returns (gs: seq<string>)
    requires |fs| >= 2 && !PipeFree(fs)
    ensures |gs| == |fs| && Join(gs) == Join(fs) && gs != fs
  {
    if '|' in fs[0] {
      gs := MovePipeRight(fs);
    } else if |fs| == 2 {
      gs := MovePipeLeft(fs);
    } else {
      var i :| 0 <= i < |fs| && '|' in fs[i];
      assert fs[1..][i - 1] == fs[i];
      var tail := Collides(fs[1..]);
      gs := [fs[0]] + tail;
      assert gs[1..] == tail;
      assert fs == [fs[0]] + fs[1..];
    }
  }

  lemma CutAtPipe(s: string) returns (p: string, q: string)
    requires '|' in s
    ensures s == p + "|" + q
  {
    var k := FirstIndex(s, '|');
    assert s[..|s|] == s;
    p, q := s[..k], s[k + 1..];
  }

  lemma MovePipeRight(fs: seq<string>) returns (gs: seq<string>)
    requires |fs| >= 2 && '|' in fs[0]
    ensures |gs| == |fs| && Join(gs) == Join(fs) && gs != fs
  {
    var p, q := CutAtPipe(fs[0]);
    var next := q + "|" + fs[1];
    gs := [p, next] + fs[2..];
    assert gs[0] == p && gs[1..] == [next] + fs[2..] && fs[1..][1..] == fs[2..] && gs[1..][1..] == fs[2..];
    if |fs| == 2 {
      assert p + "|" + next == fs[0] + "|" + fs[1];
    } else {
      var rest := Join(fs[2..]);
      assert Join(gs) == p + "|" + (next + "|" + rest);
      assert Join(fs) == fs[0] + "|" + (fs[1] + "|" + rest);
      assert p + "|" + (next + "|" + rest) == fs[0] + "|" + (fs[1] + "|" + rest);
    }
  }

  lemma MovePipeLeft(fs: seq<string>) returns (gs: seq<string>)
    requires |fs| == 2 && '|' in fs[1]
    ensures |gs| == |fs| && Join(gs) == Join(fs) && gs != fs
  {
    var p, q := CutAtPipe(fs[1]);
    gs := [fs[0] + "|" + p, q];
    assert gs[1..] == [q] && fs[1..] == [fs[1]];
    assert |gs[1]| < |fs[1]|;
    assert Join(gs) == fs[0] + "|" + p + "|" + q;
  }

  /** The hash input determines the fields exactly when none of them has a pipe. */
  lemma PreimageInjective(fs: seq<string>)
    requires |fs| >= 2
    ensures (forall gs | |gs| == |fs| && Join(gs) == Join(fs) :: gs == fs) <==> PipeFree(fs)
  {
    if PipeFree(fs) {
      forall gs | |gs| == |fs| && Join(gs) == Join(fs) ensures gs == fs {
        JoinOfPipeFree(fs, gs);
      }
    } else {
      var gs := Collides(fs);
    }
  }

  // ---------- What an id binds ----------

  lemma RealmCancels(realm: string, e: ChallengeEcho, f: ChallengeEcho)
    ensures Join(Hashed(realm, e)) == Join(Hashed(realm, f)) <==> Join(Echoed(e)) == Join(Echoed(f))
  {
    hide Join;
    var x, y := Join(Echoed(e)), Join(Echoed(f));
    JoinHead(realm, Echoed(e));
    JoinHead(realm, Echoed(f));
    assert (realm + "|" + x)[|realm| + 1..] == x && (realm + "|" + y)[|realm| + 1..] == y;
  }

  lemma JoinHead(head: string, tail: seq<string>)
    requires tail != []
    ensures Join([head] + tail) == head + "|" + Join(tail)
  {
    assert ([head] + tail)[1..] == tail;
  }

  /** An issued id binds every field of its echo, up to absent and empty optionals, exactly when none of
      these fields has a pipe; what the realm contains does not matter. */
  lemma IdBindsExactly(realm: string, issued: ChallengeEcho)
    ensures (forall e :: Join(Hashed(realm, e)) == Join(Hashed(realm, issued)) ==> Echoed(e) == Echoed(issued))
            <==> PipeFree(Echoed(issued))
  {
    hide Join, Hashed, PipeFree;
    if PipeFree(Echoed(issued)) {
      forall e | Join(Hashed(realm, e)) == Join(Hashed(realm, issued)) ensures Echoed(e) == Echoed(issued) {
        RealmCancels(realm, e, issued);
        JoinOfPipeFree(Echoed(issued), Echoed(e));
      }
    } else {
      var gs := Collides(Echoed(issued));
      var e := ChallengeEcho("", realm, gs[0], gs[1], gs[2], Some(gs[3]), Some(gs[4]), Some(gs[5]));
      assert Echoed(e) == gs;
      RealmCancels(realm, e, issued);
    }
  }

  /** An absent optional and an empty one have the same hash input, so the same id. */
  lemma AbsentIsEmpty(mac: Mac, key: string, realm: string, e: ChallengeEcho)
    ensures ComputeId(mac, key, realm, e.(expires := None)) == ComputeId(mac, key, realm, e.(expires := Some("")))
    ensures ComputeId(mac, key, realm, e.(digest := None)) == ComputeId(mac, key, realm, e.(digest := Some("")))
    ensures ComputeId(mac, key, realm, e.(correlation := None))
            == ComputeId(mac, key, realm, e.(correlation := Some("")))
  {
  }

  // ---------- Comparison ----------

  /** Compares every octet before answering. */
  method ConstantTimeEq(a: Octets, b: Octets) returns (equal: bool)
    ensures equal <==> a == b
  {
    if |a| != |b| { return false; }
    var result: bv8 := 0;
    var i := 0;
    while i < |a|
      invariant 0 <= i <= |a|
      invariant result == 0 <==> a[..i] == b[..i]
    {
      ghost var before := result;
      result := result | (a[i] ^ b[i]);
      OrXor(before, a[i], b[i]);
      assert a[..i + 1] == a[..i] + [a[i]] && b[..i + 1] == b[..i] + [b[i]];
      i := i + 1;
    }
    assert a[..|a|] == a && b[..|b|] == b;
    return result == 0;
  }

  lemma OrXor(r: bv8, x: bv8, y: bv8)
    ensures r | (x ^ y) == 0 <==> r == 0 && x == y
  {
  }
}
