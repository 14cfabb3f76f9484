/** Folding the `/connection/info` reply into the list of display names. */
module Catalogue {

  /** One entry of the info reply: the connection identifier and its name list. */
  datatype ConnectionInfo = ConnectionInfo(connection: string, name: seq<string>)

  /** The number of names over all infos. */
  function TotalNames(infos: seq<ConnectionInfo>): nat
  {
    if infos == [] then 0 else |infos[0].name| + TotalNames(infos[1..])
  }

  /** `infos.iter().flat_map(|info| info.name.clone()).collect()`: every info's
      names, info after info, nothing dropped, nothing reordered. */
  function FlattenNames(infos: seq<ConnectionInfo>): (names: seq<string>)
    ensures |names| == TotalNames(infos)
    ensures infos != [] ==> names[..|infos[0].name|] == infos[0].name
  {
    if infos == [] then [] else infos[0].name + FlattenNames(infos[1..])
  }

  /** Flattening distributes over concatenation of replies. */
  lemma {:induction false} FlattenAppend(a: seq<ConnectionInfo>, b: seq<ConnectionInfo>)
    ensures FlattenNames(a + b) == FlattenNames(a) + FlattenNames(b)
  {
    if a == [] {
      assert a + b == b;
    } else {
      assert (a + b)[1..] == a[1..] + b;
      FlattenAppend(a[1..], b);
    }
  }

  /** The names of info `i` come right after those of infos `0..i`: name `j` of
      info `i` sits at position `TotalNames(infos[..i]) + j`. With
      `FlattenCovers`, which shows every position is of that form, this fixes
      every position of the list, so order and duplicates are kept. */
  lemma {:induction false} FlattenAt(infos: seq<ConnectionInfo>, i: nat, j: nat)
    requires i < |infos| && j < |infos[i].name|
    ensures TotalNames(infos[..i]) + j < |FlattenNames(infos)|
    ensures FlattenNames(infos)[TotalNames(infos[..i]) + j] == infos[i].name[j]
  {
    if i == 0 {
      assert infos[..0] == [];
    } else {
      FlattenAt(infos[1..], i - 1, j);
      assert infos[..i][1..] == infos[1..][..i - 1];
      assert infos[..i][0] == infos[0];
    }
  }

  /** Conversely, every position of the list is name `j` of some info `i`, at
      offset `TotalNames(infos[..i]) + j`. */
  lemma {:induction false} FlattenCovers(infos: seq<ConnectionInfo>, k: nat) returns (i: nat, j: nat)
    requires k < |FlattenNames(infos)|
    ensures i < |infos| && j < |infos[i].name|
    ensures k == TotalNames(infos[..i]) + j
  {
    if k < |infos[0].name| {
      i, j := 0, k;
      assert infos[..0] == [];
    } else {
      var i', j' := FlattenCovers(infos[1..], k - |infos[0].name|);
      i, j := i' + 1, j';
      assert infos[..i][1..] == infos[1..][..i'];
      assert infos[..i][0] == infos[0];
    }
  }

  /** A name is in the list exactly when some info carries it. */
  lemma {:induction false} FlattenMembership(infos: seq<ConnectionInfo>, x: string)
    ensures x in FlattenNames(infos) <==> exists i :: 0 <= i < |infos| && x in infos[i].name
  {
    if infos != [] {
      FlattenMembership(infos[1..], x);
      if exists i :: 0 <= i < |infos| && x in infos[i].name {
        var i :| 0 <= i < |infos| && x in infos[i].name;
        if i > 0 {
          assert x in infos[1..][i - 1].name;
        }
      }
      if exists i :: 0 <= i < |infos[1..]| && x in infos[1..][i].name {
        var i :| 0 <= i < |infos[1..]| && x in infos[1..][i].name;
        assert x in infos[i + 1].name;
      }
    }
  }

  /** Two connections with the same display name both stay in the list: the
      fold neither deduplicates nor sorts. */
  lemma DuplicateNamesKept()
    ensures FlattenNames([ConnectionInfo("a1", ["web1"]), ConnectionInfo("a2", ["web1"])]) == ["web1", "web1"]
  {
  }
}
