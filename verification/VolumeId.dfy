/** The CSI volume handle: six fields joined by '|', at most 128 bytes (one char a byte). */
module VolumeId {
  import opened Options
  import opened Text

  const MAGIC := "swsk"
  const VERSION := "1"
  const SEPARATOR := '|'
  const MAX_LENGTH := 128

  datatype Handle = Handle(backend: string, instance: string, location: string, name: string)

  function Encode(h: Handle): string {
    Join([MAGIC, VERSION, h.backend, h.instance, h.location, h.name], SEPARATOR)
  }

  /** All fields but the location are required, none holds the separator, and it fits. */
  predicate Valid(h: Handle) {
    && h.backend != "" && h.instance != "" && h.name != ""
    && SEPARATOR !in h.backend && SEPARATOR !in h.instance && SEPARATOR !in h.location && SEPARATOR !in h.name
    && |Encode(h)| <= MAX_LENGTH
  }

  function Parse(s: string): Option<Handle> {
    var parts := Split(s, SEPARATOR);
    if |parts| != 6 || parts[0] != MAGIC || parts[1] != VERSION then None
    else
      var h := Handle(parts[2], parts[3], parts[4], parts[5]);
      if Valid(h) then Some(h) else None
  }

  lemma ParseEncode(h: Handle)
    requires Valid(h)
    ensures Parse(Encode(h)) == Some(h)
  {
    SplitJoin([MAGIC, VERSION, h.backend, h.instance, h.location, h.name], SEPARATOR);
  }

  /** An accepted id is exactly the encoding of the valid handle it decodes to. */
  lemma EncodeParse(s: string)
    requires Parse(s).Some?
    ensures Valid(Parse(s).value) && Encode(Parse(s).value) == s
  {
    var p, h := Split(s, SEPARATOR), Parse(s).value;
    JoinSplit(s, SEPARATOR);
    assert p == [MAGIC, VERSION, h.backend, h.instance, h.location, h.name];
  }

  /** The id of the given fields, written out. */
  ghost predicate IsId(s: string, h: Handle) {
    && s == "swsk|1|" + (h.backend + ("|" + (h.instance + ("|" + (h.location + ("|" + h.name))))))
    && h.backend != "" && h.instance != "" && h.name != ""
    && '|' !in h.backend && '|' !in h.instance && '|' !in h.location && '|' !in h.name
  }

  /** Joining from the front, written with the separator before the rest. */
  lemma JoinFront(first: string, rest: seq<string>)
    requires rest != []
    ensures Join([first] + rest, '|') == first + ("|" + Join(rest, '|'))
  {
    assert ([first] + rest)[1..] == rest;
  }

  lemma JoinSingle(only: string)
    ensures Join([only], '|') == only
  {}

  lemma Written(h: Handle)
    ensures Encode(h) == "swsk|1|" + (h.backend + ("|" + (h.instance + ("|" + (h.location + ("|" + h.name))))))
  {
    hide Join;
    var b, i, l, n := h.backend, h.instance, h.location, h.name;
    JoinSingle(n);
    JoinFront(l, [n]);
    JoinFront(i, [l, n]);
    JoinFront(b, [i, l, n]);
    JoinFront(VERSION, [b, i, l, n]);
    JoinFront(MAGIC, [VERSION, b, i, l, n]);
    assert [MAGIC] + [VERSION, b, i, l, n] == [MAGIC, VERSION, b, i, l, n];
    assert [VERSION] + [b, i, l, n] == [VERSION, b, i, l, n] && [b] + [i, l, n] == [b, i, l, n];
    assert [i] + [l, n] == [i, l, n] && [l] + [n] == [l, n];
    var rest := Join([b, i, l, n], '|');
    assert "swsk" + ("|" + ("1" + ("|" + rest))) == "swsk|1|" + rest;
  }

  /** An id is accepted exactly if it is at most 128 characters of that form, the location alone
      possibly empty, and then its fields are what is read. */
  lemma AcceptedForm(s: string)
    ensures Parse(s).Some? <==> |s| <= 128 && exists h :: IsId(s, h)
    ensures forall h | |s| <= 128 && IsId(s, h) :: Parse(s) == Some(h)
  {
    if Parse(s).Some? {
      EncodeParse(s);
      Written(Parse(s).value);
      assert IsId(s, Parse(s).value);
    }
    forall h | |s| <= 128 && IsId(s, h) ensures Parse(s) == Some(h) {
      Written(h);
      ParseEncode(h);
    }
  }

  /** So the accepted ids are exactly the encodings of valid handles. */
  lemma AcceptedIff(s: string)
    ensures Parse(s).Some? <==> exists h :: Valid(h) && Encode(h) == s
  {
    if Parse(s).Some? { EncodeParse(s); }
    if h :| Valid(h) && Encode(h) == s { ParseEncode(h); }
  }
}
