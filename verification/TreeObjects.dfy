/**
 The tree codec the publish protocol is given is the one module TreeCodec proves
 correct. A tree object holds hexadecimal digests, so it speaks of the digests whose
 texts tell them apart: all of those in use, unless SHA-256 collides on them.
 */
module TreeObjects {
  import Publish
  import Refs
  import TreeCodec
  import opened Utf8
  import opened Wrappers

  type Hex = Publish.BlobDigest -> string

  /** Each digest in use has a text of its own. */
  ghost predicate Tells(hex: Hex, known: set<Publish.BlobDigest>) {
    && (forall d :: d in known ==> Refs.IsDigest(hex(d)))
    && (forall d, e :: d in known && e in known && hex(d) == hex(e) ==> d == e)
  }

  ghost function Texts(hex: Hex, m: Publish.Manifest): TreeCodec.Manifest { map p | p in m :: hex(m[p]) }

  /** A manifest of digests in use that put_tree accepts. */
  ghost predicate IsSafe(hex: Hex, known: set<Publish.BlobDigest>, m: Publish.Manifest) {
    (forall p :: p in m ==> m[p] in known) && TreeCodec.SafeManifest(Texts(hex, m))
  }

  /** data is the tree object of m. */
  ghost predicate IsTreeOf(hex: Hex, known: set<Publish.BlobDigest>, m: Publish.Manifest, data: seq<Byte>) {
    IsSafe(hex, known, m) && TreeCodec.IsTreeOf(Texts(hex, m), data)
  }

  ghost function Encoded(hex: Hex, m: Publish.Manifest): seq<Byte> { TreeCodec.TreeBytes(Texts(hex, m)) }

  ghost function Decoded(hex: Hex, known: set<Publish.BlobDigest>, data: seq<Byte>): Option<Publish.Manifest> {
    if exists m :: IsTreeOf(hex, known, m, data) then
      var m :| IsTreeOf(hex, known, m, data);
      Some(m)
    else None
  }

  ghost function Objects(hex: Hex, known: set<Publish.BlobDigest>, prefix: Publish.BlobDigest -> int): Publish.Codec {
    Publish.Codec.Codec(
      (m: Publish.Manifest) => IsSafe(hex, known, m), (m: Publish.Manifest) => Encoded(hex, m),
      (data: seq<Byte>) => Decoded(hex, known, data), prefix)
  }

  lemma TextsTell(hex: Hex, known: set<Publish.BlobDigest>, m: Publish.Manifest, n: Publish.Manifest)
    requires Tells(hex, known) && IsSafe(hex, known, m) && IsSafe(hex, known, n) && Texts(hex, m) == Texts(hex, n)
    ensures m == n
  {
    assert m.Keys == Texts(hex, m).Keys && n.Keys == Texts(hex, n).Keys;
    forall p | p in m ensures m[p] == n[p] {
      assert Texts(hex, m)[p] == hex(m[p]) && Texts(hex, n)[p] == hex(n[p]);
    }
  }

  lemma TreeOfOne(hex: Hex, known: set<Publish.BlobDigest>, m: Publish.Manifest, n: Publish.Manifest, data: seq<Byte>)
    requires Tells(hex, known) && IsTreeOf(hex, known, m, data) && IsTreeOf(hex, known, n, data)
    ensures m == n
  {
    TreeCodec.TreeBytesAreInjective(Texts(hex, m), Texts(hex, n));
    TextsTell(hex, known, m, n);
  }

  /** So the codec has the property the publish protocol asks for, and decodes exactly
      the tree objects. */
  lemma ObjectsAreGood(hex: Hex, known: set<Publish.BlobDigest>, prefix: Publish.BlobDigest -> int)
    requires Tells(hex, known)
    ensures Publish.GoodCodec(Objects(hex, known, prefix))
    ensures forall m, data :: Decoded(hex, known, data) == Some(m) <==> IsTreeOf(hex, known, m, data)
  {
    forall m, data ensures Decoded(hex, known, data) == Some(m) <==> IsTreeOf(hex, known, m, data) {
      if IsTreeOf(hex, known, m, data) { TreeOfOne(hex, known, m, Decoded(hex, known, data).value, data); }
    }
    var c := Objects(hex, known, prefix);
    forall m: Publish.Manifest | c.safe(m) ensures c.decode(c.encode(m)) == Some(m) {
      assert IsTreeOf(hex, known, m, Encoded(hex, m));
    }
  }

  /** decode_tree computes it: on a tree object of digests in use it returns their texts. */
  method DecodeObject(hex: Hex, ghost known: set<Publish.BlobDigest>, data: seq<Byte>)
    returns (r: Option<TreeCodec.Manifest>)
    ensures forall m :: Decoded(hex, known, data) == Some(m) ==> r == Some(Texts(hex, m))
  {
    r := TreeCodec.DecodeTree(data);
  }
}
