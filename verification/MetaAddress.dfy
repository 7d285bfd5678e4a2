/** Where a volume's or a snapshot's metadata lives: on its image, under a plain or a
    snapshot-qualified key. */
module MetaAddress {
  import opened Rbd
  import opened Text

  /** A snapshot spec "image@snap" stores `key` as "key@snap" on its image. */
  function MetaAddr(spec: string, key: string): (string, string) {
    var i := IndexOf(spec, '@');
    if i == |spec| then (spec, key) else (spec[..i], key + "@" + spec[i + 1..])
  }

  /** Distinct targets or keys have distinct addresses, for every key without '@'. */
  lemma MetaAddrInjective(s: string, k: string, t: string, l: string)
    requires '@' !in k && '@' !in l && MetaAddr(s, k) == MetaAddr(t, l)
    ensures s == t && k == l
  {
    var i, j := IndexOf(s, '@'), IndexOf(t, '@');
    var addr := MetaAddr(s, k).1;
    assert i < |s| ==> addr[|k|] == '@' && s == s[..i] + "@" + s[i + 1..];
    assert j < |t| ==> addr[|l|] == '@' && t == t[..j] + "@" + t[j + 1..];
    if i < |s| && j < |t| { CutUnique(k, s[i + 1..], l, t[j + 1..], '@'); }
  }

  /** A key that holds '@' collides with a snapshot's. */
  lemma QualifiedKeyCollides(image: string, snap: string, key: string)
    requires '@' !in image
    ensures MetaAddr(image, key + "@" + snap) == MetaAddr(image + "@" + snap, key)
  {
    var spec := image + "@" + snap;
    IndexOfFirst(image, '@', snap);
    assert spec == image + ['@'] + snap && spec[..|image|] == image && spec[|image| + 1..] == snap;
  }

  function SetMeta(c: Cluster, spec: string, key: string, value: string): Cluster {
    MetaSet(c, MetaAddr(spec, key).0, MetaAddr(spec, key).1, value)
  }

  function GetMeta(c: Cluster, spec: string, key: string): string {
    MetaGet(c, MetaAddr(spec, key).0, MetaAddr(spec, key).1)
  }

  /** A write to one volume's or snapshot's key is read back there and nowhere else. */
  lemma WriteTouchesOne(c: Cluster, s: string, k: string, value: string, t: string, l: string)
    requires '@' !in k && '@' !in l
    ensures GetMeta(SetMeta(c, s, k, value), t, l) == if (t, l) == (s, k) then value else GetMeta(c, t, l)
  {
    if (t, l) != (s, k) && MetaAddr(s, k) == MetaAddr(t, l) { MetaAddrInjective(s, k, t, l); }
  }
}
