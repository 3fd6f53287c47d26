/** The decoder as it runs: a cursor over the octets, advanced by each field it reads. */
module PackageReader {
  import opened Sequences
  import opened NatCodec
  import WP = WorkPackages

  class Cursor {
    const buf: Bytes
    var i: nat

    constructor (buf: Bytes)
      ensures this.buf == buf && i == 0
    {
      this.buf, i := buf, 0;
    }

    /** The outcome of a read, and where it leaves the cursor. */
    ghost predicate Is<T>(r: Option<T>, spec: WP.Read<T>)
      reads this
    {
      if spec.Fail? then r.None? else r == Some(spec.value) && i == spec.next
    }

    method Take(n: nat) returns (r: Option<Bytes>)
      modifies this
      ensures Is(r, WP.Take(buf, old(i), n))
    {
      if i + n > |buf| {
        return None;
      }
      r := Some(buf[i..i + n]);
      i := i + n;
    }

    method Hash() returns (r: Option<Bytes>)
      modifies this
      ensures Is(r, WP.HashR()(buf, old(i)))
    {
      r := Take(32);
    }

    method U(n: nat) returns (r: Option<int>)
      modifies this
      ensures Is(r, WP.UR(n)(buf, old(i)))
    {
      var bs := Take(n);
      if bs.None? {
        return None;
      }
      r := Some(FromLE(bs.value));
    }

    method Natural() returns (r: Option<nat>)
      modifies this
      ensures Is(r, WP.ReadNat(buf, old(i)))
    {
      var d := Decode(buf, i);
      if d.Bad? {
        return None;
      }
      i := d.next;
      r := Some(d.x);
    }

    method Blob() returns (r: Option<Bytes>)
      modifies this
      ensures Is(r, WP.BlobR()(buf, old(i)))
    {
      var n := Natural();
      if n.None? {
        return None;
      }
      r := Take(n.value);
    }

    method Hashes() returns (r: Option<seq<Bytes>>)
      modifies this
      ensures Is(r, WP.SeqR(WP.HashR())(buf, old(i)))
    {
      var n := Natural();
      if n.None? {
        return None;
      }
      r := HashesOf(n.value);
    }

    method HashesOf(n: nat) returns (r: Option<seq<Bytes>>)
      modifies this
      ensures Is(r, WP.ReadMany(WP.HashR(), buf, old(i), n))
    {
      ghost var goal := WP.ReadMany(WP.HashR(), buf, i, n);
      var xs := [];
      WP.PendingAll(WP.HashR(), buf, i, n);
      for k := 0 to n
        invariant WP.Pending(WP.HashR(), buf, i, n - k, xs, goal)
      {
        WP.PendingNext(WP.HashR(), buf, i, n - k, xs, goal);
        var x := Hash();
        if x.None? {
          return None;
        }
        xs := xs + [x.value];
      }
      WP.PendingNone(WP.HashR(), buf, i, xs, goal);
      r := Some(xs);
    }

    method Import() returns (r: Option<WP.ImportRef>)
      modifies this
      ensures Is(r, WP.ImportR()(buf, old(i)))
    {
      WP.MapAt(WP.PairR(WP.HashR(), WP.UR(2)), WP.ImportOf(), buf, i);
      var root := Hash();
      if root.None? {
        return None;
      }
      var n := U(2);
      if n.None? {
        return None;
      }
      r := Some(WP.ImportRef(root.value, n.value % WP.IMPORTS, n.value / WP.IMPORTS != 0));
    }

    method Imports() returns (r: Option<seq<WP.ImportRef>>)
      modifies this
      ensures Is(r, WP.SeqR(WP.ImportR())(buf, old(i)))
    {
      var n := Natural();
      if n.None? {
        return None;
      }
      r := ImportsOf(n.value);
    }

    method ImportsOf(n: nat) returns (r: Option<seq<WP.ImportRef>>)
      modifies this
      ensures Is(r, WP.ReadMany(WP.ImportR(), buf, old(i), n))
    {
      ghost var goal := WP.ReadMany(WP.ImportR(), buf, i, n);
      var xs := [];
      WP.PendingAll(WP.ImportR(), buf, i, n);
      for k := 0 to n
        invariant WP.Pending(WP.ImportR(), buf, i, n - k, xs, goal)
      {
        WP.PendingNext(WP.ImportR(), buf, i, n - k, xs, goal);
        var x := Import();
        if x.None? {
          return None;
        }
        xs := xs + [x.value];
      }
      WP.PendingNone(WP.ImportR(), buf, i, xs, goal);
      r := Some(xs);
    }

    method Extrinsic() returns (r: Option<WP.Extrinsic>)
      modifies this
      ensures Is(r, WP.ExtrinsicR()(buf, old(i)))
    {
      WP.MapAt(WP.PairR(WP.HashR(), WP.UR(4)), WP.ExtrinsicOf(), buf, i);
      var hash := Hash();
      if hash.None? {
        return None;
      }
      var length := U(4);
      if length.None? {
        return None;
      }
      r := Some(WP.Extrinsic(hash.value, length.value));
    }

    method Extrinsics() returns (r: Option<seq<WP.Extrinsic>>)
      modifies this
      ensures Is(r, WP.SeqR(WP.ExtrinsicR())(buf, old(i)))
    {
      var n := Natural();
      if n.None? {
        return None;
      }
      r := ExtrinsicsOf(n.value);
    }

    method ExtrinsicsOf(n: nat) returns (r: Option<seq<WP.Extrinsic>>)
      modifies this
      ensures Is(r, WP.ReadMany(WP.ExtrinsicR(), buf, old(i), n))
    {
      ghost var goal := WP.ReadMany(WP.ExtrinsicR(), buf, i, n);
      var xs := [];
      WP.PendingAll(WP.ExtrinsicR(), buf, i, n);
      for k := 0 to n
        invariant WP.Pending(WP.ExtrinsicR(), buf, i, n - k, xs, goal)
      {
        WP.PendingNext(WP.ExtrinsicR(), buf, i, n - k, xs, goal);
        var x := Extrinsic();
        if x.None? {
          return None;
        }
        xs := xs + [x.value];
      }
      WP.PendingNone(WP.ExtrinsicR(), buf, i, xs, goal);
      r := Some(xs);
    }

    method Context() returns (r: Option<WP.Context>)
      modifies this
      ensures Is(r, WP.ContextR()(buf, old(i)))
    {
      ghost var last := WP.PairR(WP.HashR(), WP.SeqR(WP.HashR()));
      ghost var late := WP.PairR(WP.HashR(), WP.PairR(WP.UR(4), last));
      WP.MapAt(WP.ContextFieldsR(), WP.ContextOf(), buf, i);
      WP.TwoAt(WP.HashR(), WP.UR(4), WP.PairR(WP.HashR(), WP.PairR(WP.HashR(), late)), buf, i);
      var anchor := Hash();
      if anchor.None? {
        return None;
      }
      var anchorSlot := U(4);
      if anchorSlot.None? {
        return None;
      }
      WP.TwoAt(WP.HashR(), WP.HashR(), late, buf, i);
      var stateRoot := Hash();
      if stateRoot.None? {
        return None;
      }
      var beefyRoot := Hash();
      if beefyRoot.None? {
        return None;
      }
      WP.TwoAt(WP.HashR(), WP.UR(4), last, buf, i);
      var lookup := Hash();
      if lookup.None? {
        return None;
      }
      var lookupSlot := U(4);
      if lookupSlot.None? {
        return None;
      }
      var lookupRoot := Hash();
      if lookupRoot.None? {
        return None;
      }
      var prerequisites := Hashes();
      if prerequisites.None? {
        return None;
      }
      r := Some(WP.Context(anchor.value, anchorSlot.value, stateRoot.value, beefyRoot.value, lookup.value,
                           lookupSlot.value, lookupRoot.value, prerequisites.value));
    }

    method Item() returns (r: Option<WP.Item>)
      modifies this
      ensures Is(r, WP.ItemR()(buf, old(i)))
    {
      ghost var last := WP.PairR(WP.SeqR(WP.ImportR()), WP.SeqR(WP.ExtrinsicR()));
      ghost var late := WP.PairR(WP.UR(2), WP.PairR(WP.BlobR(), last));
      WP.MapAt(WP.ItemFieldsR(), WP.ItemOf(), buf, i);
      WP.TwoAt(WP.UR(4), WP.HashR(), WP.PairR(WP.UR(8), WP.PairR(WP.UR(8), late)), buf, i);
      var service := U(4);
      if service.None? {
        return None;
      }
      var codeHash := Hash();
      if codeHash.None? {
        return None;
      }
      WP.TwoAt(WP.UR(8), WP.UR(8), late, buf, i);
      var refineGas := U(8);
      if refineGas.None? {
        return None;
      }
      var accumulateGas := U(8);
      if accumulateGas.None? {
        return None;
      }
      WP.TwoAt(WP.UR(2), WP.BlobR(), last, buf, i);
      var exportCount := U(2);
      if exportCount.None? {
        return None;
      }
      var payload := Blob();
      if payload.None? {
        return None;
      }
      var imports := Imports();
      if imports.None? {
        return None;
      }
      var extrinsics := Extrinsics();
      if extrinsics.None? {
        return None;
      }
      r := Some(WP.Item(service.value, codeHash.value, payload.value, refineGas.value, accumulateGas.value,
                        exportCount.value, imports.value, extrinsics.value));
    }

    method Items() returns (r: Option<seq<WP.Item>>)
      modifies this
      ensures Is(r, WP.SeqR(WP.ItemR())(buf, old(i)))
    {
      var n := Natural();
      if n.None? {
        return None;
      }
      r := ItemsOf(n.value);
    }

    method ItemsOf(n: nat) returns (r: Option<seq<WP.Item>>)
      modifies this
      ensures Is(r, WP.ReadMany(WP.ItemR(), buf, old(i), n))
    {
      ghost var goal := WP.ReadMany(WP.ItemR(), buf, i, n);
      var xs := [];
      WP.PendingAll(WP.ItemR(), buf, i, n);
      for k := 0 to n
        invariant WP.Pending(WP.ItemR(), buf, i, n - k, xs, goal)
      {
        WP.PendingNext(WP.ItemR(), buf, i, n - k, xs, goal);
        var x := Item();
        if x.None? {
          return None;
        }
        xs := xs + [x.value];
      }
      WP.PendingNone(WP.ItemR(), buf, i, xs, goal);
      r := Some(xs);
    }

    method Package() returns (r: Option<WP.Package>)
      modifies this
      ensures Is(r, WP.PackageR()(buf, old(i)))
    {
      ghost var last := WP.PairR(WP.BlobR(), WP.SeqR(WP.ItemR()));
      WP.MapAt(WP.PackageFieldsR(), WP.PackageOf(), buf, i);
      WP.TwoAt(WP.UR(4), WP.HashR(), WP.PairR(WP.ContextR(), WP.PairR(WP.BlobR(), last)), buf, i);
      var host := U(4);
      if host.None? {
        return None;
      }
      var codeHash := Hash();
      if codeHash.None? {
        return None;
      }
      WP.TwoAt(WP.ContextR(), WP.BlobR(), last, buf, i);
      var context := Context();
      if context.None? {
        return None;
      }
      var token := Blob();
      if token.None? {
        return None;
      }
      var config := Blob();
      if config.None? {
        return None;
      }
      var items := Items();
      if items.None? {
        return None;
      }
      r := Some(WP.Package(host.value, codeHash.value, context.value, items.value, token.value, config.value));
    }
  }

  /** Decode a package: everything must be read. */
  method DecodePackage(data: Bytes) returns (r: Option<WP.Package>)
    ensures r == WP.Decode(data)
  {
    var c := new Cursor(data);
    r := c.Package();
    if r.Some? && c.i != |data| {
      r := None;
    }
  }
}
