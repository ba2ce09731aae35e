/**
 Archives as such: a run of local parts, a directory that points back at them, and a reader of the
 directory. What the parts look like and how their headers are read are parameters here.
 */
module ZipLayout {
  import opened Common

  function Locals<M, B>(local: M -> seq<B>, members: seq<M>): seq<B> {
    if members == [] then []
    else Locals(local, members[..|members| - 1]) + local(members[|members| - 1])
  }

  function Directory<M, B>(local: M -> seq<B>, central: (M, nat) -> seq<B>, members: seq<M>): seq<B> {
    if members == [] then []
    else
      var before := members[..|members| - 1];
      Directory(local, central, before) + central(members[|members| - 1], |Locals(local, before)|)
  }

  /** `count` members, from the directory bytes `b` to the end of them. */
  function ReadMembers<M, H, B>(header: seq<B> -> Option<(H, nat)>, file: (seq<B>, H) -> Option<M>,
                                a: seq<B>, b: seq<B>, count: nat): Option<seq<M>>
    decreases count
  {
    if count == 0 then if |b| == 0 then Some([]) else None
    else
      match header(b)
      case None => None
      case Some((h, size)) =>
        if size > |b| then None
        else
          match (file(a, h), ReadMembers(header, file, a, b[size..], count - 1))
          case (Some(member), Some(rest)) => Some([member] + rest)
          case _ => None
  }

  // ------------------------------------------------------------------ Positions

  lemma {:induction false} Prefixes<M, B>(local: M -> seq<B>, central: (M, nat) -> seq<B>, members: seq<M>, k: nat)
    requires k <= |members|
    ensures Locals(local, members[..k]) <= Locals(local, members)
    ensures Directory(local, central, members[..k]) <= Directory(local, central, members)
  {
    var n := |members| - 1;
    if k == |members| {
      assert members[..k] == members;
    } else {
      Prefixes(local, central, members[..n], k);
      assert members[..n][..k] == members[..k];
    }
  }

  lemma NextPart<M, B>(local: M -> seq<B>, central: (M, nat) -> seq<B>, members: seq<M>, k: nat)
    requires k < |members|
    ensures var before := Locals(local, members[..k]);
      && Locals(local, members[..k + 1]) == before + local(members[k])
      && Directory(local, central, members[..k + 1])
        == Directory(local, central, members[..k]) + central(members[k], |before|)
  {
    assert members[..k + 1][..k] == members[..k];
  }

  lemma PrefixAt<B>(all: seq<B>, before: seq<B>, part: seq<B>)
    requires before + part <= all
    ensures all == before + (part + all[|before| + |part|..])
    ensures all[|before|..] == part + all[|before| + |part|..]
  {
  }

  lemma Associate<B>(a: seq<B>, b: seq<B>, c: seq<B>, d: seq<B>)
    ensures (a + (b + c)) + d == a + (b + (c + d))
  {
  }

  // ------------------------------------------------------------------ Reading back

  /** A header reader undoes `central`, and a file reader undoes `local` wherever its part lies. */
  ghost predicate Undoes<M(!new), H, B(!new)>(local: M -> seq<B>, central: (M, nat) -> seq<B>, describe: (M, nat) -> H,
    header: seq<B> -> Option<(H, nat)>, file: (seq<B>, H) -> Option<M>, members: seq<M>, bound: nat)
  {
    && (forall m, offset: nat, rest | m in members && offset < bound ::
          header(central(m, offset) + rest) == Some((describe(m, offset), |central(m, offset)|)))
    && (forall m, before, rest | m in members ::
          file(before + (local(m) + rest), describe(m, |before|)) == Some(m))
  }

  /** Where the directory entry and the local part of member `k` lie. */
  lemma PartsAt<M, B>(local: M -> seq<B>, central: (M, nat) -> seq<B>, members: seq<M>, tail: seq<B>, k: nat)
    returns (more: seq<B>, rest: seq<B>)
    requires k < |members|
    ensures var d, before := Directory(local, central, members), Locals(local, members[..k]);
      var at, after := |Directory(local, central, members[..k])|, |Directory(local, central, members[..k + 1])|;
      && |before| <= |Locals(local, members)| && at <= after <= |d|
      && after - at == |central(members[k], |before|)| && d[at..] == central(members[k], |before|) + more
      && Locals(local, members) + tail == before + (local(members[k]) + rest)
  {
    var d, locals := Directory(local, central, members), Locals(local, members);
    var before, m := Locals(local, members[..k]), members[k];
    var dk := Directory(local, central, members[..k]);
    Prefixes(local, central, members, k);
    Prefixes(local, central, members, k + 1);
    NextPart(local, central, members, k);
    PrefixAt(d, dk, central(m, |before|));
    more := d[|dk| + |central(m, |before|)|..];
    PrefixAt(locals, before, local(m));
    rest := locals[|before| + |local(m)|..] + tail;
    Associate(before, local(m), locals[|before| + |local(m)|..], tail);
  }

  lemma ReadOne<M(!new), H, B(!new)>(local: M -> seq<B>, central: (M, nat) -> seq<B>, describe: (M, nat) -> H,
    header: seq<B> -> Option<(H, nat)>, file: (seq<B>, H) -> Option<M>, members: seq<M>, tail: seq<B>, bound: nat,
    k: nat)
    requires Undoes(local, central, describe, header, file, members, bound)
    requires k < |members| && |Locals(local, members)| < bound
    ensures var d, offset := Directory(local, central, members), |Locals(local, members[..k])|;
      var at, after := |Directory(local, central, members[..k])|, |Directory(local, central, members[..k + 1])|;
      && at <= after <= |d| && header(d[at..]) == Some((describe(members[k], offset), after - at))
      && file(Locals(local, members) + tail, describe(members[k], offset)) == Some(members[k])
  {
    var more, rest := PartsAt(local, central, members, tail, k);
    var before, m := Locals(local, members[..k]), members[k];
    assert m in members;
    assert header(central(m, |before|) + more) == Some((describe(m, |before|), |central(m, |before|)|));
    assert file(before + (local(m) + rest), describe(m, |before|)) == Some(m);
  }

  lemma ReadStep<M, H, B>(header: seq<B> -> Option<(H, nat)>, file: (seq<B>, H) -> Option<M>, a: seq<B>,
                          b: seq<B>, count: nat, h: H, size: nat, member: M, rest: seq<M>)
    requires count > 0 && size <= |b| && header(b) == Some((h, size)) && file(a, h) == Some(member)
    requires ReadMembers(header, file, a, b[size..], count - 1) == Some(rest)
    ensures ReadMembers(header, file, a, b, count) == Some([member] + rest)
  {
  }

  lemma {:induction false} ReadFrom<M(!new), H, B(!new)>(
    local: M -> seq<B>, central: (M, nat) -> seq<B>, describe: (M, nat) -> H, header: seq<B> -> Option<(H, nat)>,
    file: (seq<B>, H) -> Option<M>, members: seq<M>, tail: seq<B>, bound: nat, k: nat)
    requires Undoes(local, central, describe, header, file, members, bound)
    requires k <= |members| && |Locals(local, members)| < bound
    ensures |Directory(local, central, members[..k])| <= |Directory(local, central, members)|
    ensures ReadMembers(header, file, Locals(local, members) + tail,
                        Directory(local, central, members)[|Directory(local, central, members[..k])|..], |members| - k)
         == Some(members[k..])
    decreases |members| - k
  {
    var d := Directory(local, central, members);
    if k == |members| {
      assert members[..k] == members;
    } else {
      ReadOne(local, central, describe, header, file, members, tail, bound, k);
      ReadFrom(local, central, describe, header, file, members, tail, bound, k + 1);
      var at, after := |Directory(local, central, members[..k])|, |Directory(local, central, members[..k + 1])|;
      assert d[at..][after - at..] == d[after..];
      ReadStep(header, file, Locals(local, members) + tail, d[at..], |members| - k,
               describe(members[k], |Locals(local, members[..k])|), after - at, members[k], members[k + 1..]);
      assert members[k..] == [members[k]] + members[k + 1..];
    }
  }

  lemma ReadBack<M(!new), H, B(!new)>(local: M -> seq<B>, central: (M, nat) -> seq<B>, describe: (M, nat) -> H,
    header: seq<B> -> Option<(H, nat)>, file: (seq<B>, H) -> Option<M>, members: seq<M>, tail: seq<B>, bound: nat)
    requires Undoes(local, central, describe, header, file, members, bound) && |Locals(local, members)| < bound
    ensures ReadMembers(header, file, Locals(local, members) + tail, Directory(local, central, members), |members|)
        == Some(members)
  {
    ReadFrom(local, central, describe, header, file, members, tail, bound, 0);
    assert members[..0] == [] && members[0..] == members;
    assert Directory(local, central, members)[0..] == Directory(local, central, members);
  }
}
