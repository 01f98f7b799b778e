/** `getAuthenticatedLns`: one LNSocket session per distinct node name asked
    for, in the order the names first appear, or a single session for the
    default node when no name is given.
 */
module CoreLns {
  import opened Wrappers
  import opened FileSystem
  import opened CredentialStore
  import opened LnSession

  /** The `nodes` argument: absent, one name, or a list of names. */
  datatype NodesArg = NoNodes | One(name: string) | Many(names: seq<string>)

  /** The names asked for, or `None` when the argument is absent or empty
      (`!nodes || !nodes.length`). A single name is a one-element list. */
  function NamesOf(nodes: NodesArg): (r: Option<seq<string>>)
    ensures r.Some? ==> |r.value| > 0
    ensures nodes.One? ==> r == if nodes.name == "" then None else Some([nodes.name])
    ensures nodes.Many? ==> r == if nodes.names == [] then None else Some(nodes.names)
  {
    match nodes
    case NoNodes => None
    case One(name) => if name == "" then None else Some([name])
    case Many(names) => if names == [] then None else Some(names)
  }

  // ---------------------------------------------------------------------
  // `Array.from(new Set(list))`

  predicate Distinct(s: seq<string>) {
    forall i, j :: 0 <= i < j < |s| ==> s[i] != s[j]
  }

  /** Where `x` first occurs in `s`. */
  function FirstIndex(s: seq<string>, x: string): (r: nat)
    requires x in s
    ensures r < |s| && s[r] == x && x !in s[..r]
  {
    if s[0] == x then 0
    else
      var r := FirstIndex(s[1..], x);
      assert s[..r + 1] == [s[0]] + s[1..][..r];
      r + 1
  }

  lemma {:induction false} FirstIndexPrefix(s: seq<string>, t: seq<string>, x: string)
    requires x in s
    ensures x in s + t && FirstIndex(s + t, x) == FirstIndex(s, x)
  {
    if s[0] != x {
      assert (s + t)[1..] == s[1..] + t;
      FirstIndexPrefix(s[1..], t, x);
    }
  }

  /** The distinct elements of `s`, each where it first occurs. */
  function Dedup(s: seq<string>): (r: seq<string>)
    ensures Distinct(r)
    ensures forall x :: x in r <==> x in s
    ensures |r| <= |s|
  {
    if |s| == 0 then []
    else
      var r := Dedup(s[..|s| - 1]);
      assert forall x :: x in s <==> x in s[..|s| - 1] || x == s[|s| - 1] by {
        assert s == s[..|s| - 1] + [s[|s| - 1]];
      }
      if s[|s| - 1] in r then r else r + [s[|s| - 1]]
  }

  /** A name first seen after all of `r` can follow them in that order. */
  lemma OrderWithNew(s: seq<string>, r: seq<string>, x: string)
    requires x in s && forall y :: y in r ==> y in s && FirstIndex(s, y) < FirstIndex(s, x)
    requires forall i, j :: 0 <= i < j < |r| ==> FirstIndex(s, r[i]) < FirstIndex(s, r[j])
    ensures forall i, j :: 0 <= i < j < |r + [x]| ==> FirstIndex(s, (r + [x])[i]) < FirstIndex(s, (r + [x])[j])
  {
    forall i, j | 0 <= i < j < |r + [x]|
      ensures FirstIndex(s, (r + [x])[i]) < FirstIndex(s, (r + [x])[j])
    {
      assert (r + [x])[i] == r[i];
      if j < |r| {
        assert (r + [x])[j] == r[j];
      }
    }
  }

  /** Appending a name leaves where the earlier names first occur. */
  lemma OrderCarries(p: seq<string>, x: string, r: seq<string>)
    requires forall y :: y in r ==> y in p
    requires forall i, j :: 0 <= i < j < |r| ==> FirstIndex(p, r[i]) < FirstIndex(p, r[j])
    ensures forall y :: y in r ==> y in p + [x] && FirstIndex(p + [x], y) < |p|
    ensures forall i, j :: 0 <= i < j < |r| ==> FirstIndex(p + [x], r[i]) < FirstIndex(p + [x], r[j])
  {
    forall y | y in p
      ensures FirstIndex(p + [x], y) == FirstIndex(p, y) < |p|
    {
      FirstIndexPrefix(p, [x], y);
    }
  }

  /** A name not seen before first occurs where it is appended. */
  lemma NewIsLast(p: seq<string>, x: string)
    requires x !in p
    ensures x in p + [x] && FirstIndex(p + [x], x) == |p|
  {
    assert forall k :: 0 <= k < |p| ==> (p + [x])[k] == p[k];
  }

  /** The order of `Dedup(s)` is the order of first occurrence in `s`. */
  lemma {:induction false} DedupFirstSeenOrder(s: seq<string>)
    ensures forall i, j :: 0 <= i < j < |Dedup(s)| ==> FirstIndex(s, Dedup(s)[i]) < FirstIndex(s, Dedup(s)[j])
  {
    if |s| > 0 {
      var p := s[..|s| - 1];
      var x := s[|s| - 1];
      assert s == p + [x];
      DedupFirstSeenOrder(p);
      var r := Dedup(p);
      OrderCarries(p, x, r);
      if x !in r {
        NewIsLast(p, x);
        OrderWithNew(s, r, x);
      }
    }
  }

  /** A list already free of repeats is kept as it is. */
  lemma {:induction false} DedupDistinct(s: seq<string>)
    requires Distinct(s)
    ensures Dedup(s) == s
  {
    if |s| > 0 {
      var p := s[..|s| - 1];
      DedupDistinct(p);
      assert s[|s| - 1] !in p;
      assert s == p + [s[|s| - 1]];
    }
  }

  // ---------------------------------------------------------------------
  // The sessions

  /** `map(list, node => authenticatedLn({node}))`: one session attempt
      per name, every one of them made. `Collected` then settles the whole
      on the first failure in list order. */
  function Attempts(env: Env, fs: Fs, net: Network, names: seq<string>): (r: seq<Outcome<Ln>>)
    ensures |r| == |names| && forall i :: 0 <= i < |names| ==> r[i] == AuthenticatedLn(env, fs, net, names[i])
  {
    seq(|names|, i requires 0 <= i < |names| => AuthenticatedLn(env, fs, net, names[i]))
  }

  /** `getAuthenticatedLns({nodes})` */
  function GetCoreLns(env: Env, fs: Fs, net: Network, nodes: NodesArg): (o: Outcome<seq<Ln>>)
    ensures NamesOf(nodes).None? ==>
      var session := AuthenticatedLn(env, fs, net, "");
      && o.effects == session.effects
      && (o.result.Ok? <==> session.result.Ok?)
      && (o.result.Ok? ==> o.result.value == [session.result.value])
    ensures NamesOf(nodes).Some? ==>
      o == Collected(Attempts(env, fs, net, Dedup(NamesOf(nodes).value)))
    ensures NamesOf(nodes).Some? ==>
      var list := Dedup(NamesOf(nodes).value);
      && (o.result.Ok? <==> forall i :: 0 <= i < |list| ==> AuthenticatedLn(env, fs, net, list[i]).result.Ok?)
      && (o.result.Ok? ==> (|o.result.value| == |list|
            && forall i :: 0 <= i < |list| ==> AuthenticatedLn(env, fs, net, list[i]).result == Ok(o.result.value[i])))
      && (o.result.Err? ==> exists i :: (0 <= i < |list| && AuthenticatedLn(env, fs, net, list[i]).result == Err(o.result.error)
            && forall j :: 0 <= j < i ==> AuthenticatedLn(env, fs, net, list[j]).result.Ok?))
    ensures o.result.Ok? ==> 1 <= |o.result.value|
    ensures o.result.Ok? && NamesOf(nodes).Some? ==> |o.result.value| <= |Dedup(NamesOf(nodes).value)|
  {
    match NamesOf(nodes)
    case None =>
      var session := AuthenticatedLn(env, fs, net, "");
      Outcome(session.effects, match session.result
        case Err(e) => Err(e)
        case Ok(ln) => Ok([ln]))
    case Some(names) =>
      var list := Dedup(names);
      assert names[0] in list;
      var o := Collected(Attempts(env, fs, net, list));
      AttemptsGathered(env, fs, net, list, o);
      o
  }

  /** The attempts gathered: a session per name, each at its name's position
      and opened as `authenticatedLn` opens it for that name alone, or the
      failure of the first name, in list order, that could not be opened. */
  lemma AttemptsGathered(env: Env, fs: Fs, net: Network, list: seq<string>, o: Outcome<seq<Ln>>)
    requires o == Collected(Attempts(env, fs, net, list))
    ensures o.result.Ok? <==> forall i :: 0 <= i < |list| ==> AuthenticatedLn(env, fs, net, list[i]).result.Ok?
    ensures o.result.Ok? ==> (|o.result.value| == |list|
      && forall i :: 0 <= i < |list| ==> AuthenticatedLn(env, fs, net, list[i]).result == Ok(o.result.value[i]))
    ensures o.result.Err? ==> exists i :: (0 <= i < |list| && AuthenticatedLn(env, fs, net, list[i]).result == Err(o.result.error)
      && forall j :: 0 <= j < i ==> AuthenticatedLn(env, fs, net, list[j]).result.Ok?)
  {
  }

  /** Asking for the same node twice opens one session for it. */
  lemma RepeatedNameOneSession(env: Env, fs: Fs, net: Network, name: string)
    requires name != ""
    ensures GetCoreLns(env, fs, net, Many([name, name])) == GetCoreLns(env, fs, net, One(name))
  {
    assert NamesOf(Many([name, name])) == Some([name, name]);
    assert NamesOf(One(name)) == Some([name]);
    DedupPair(name);
  }

  lemma DedupPair(name: string)
    ensures Dedup([name, name]) == [name] && Dedup([name]) == [name]
  {
    assert [name, name][..1] == [name];
    assert [name][..0] == [];
  }
}
