/** Util::MakeKey for one to seven text components. */
module CompositeKey {
  import opened Escaping

  function SeparatedMaybe(value: string, separator: string): string {
    if value == "" then "" else value + separator
  }

  /** All components but the last get a separator behind them unless they are empty. */
  function MakeKey(parts: seq<string>): string
    requires 1 <= |parts| <= 7
  {
    if |parts| == 1 then Escape(parts[0])
    else SeparatedMaybe(Escape(parts[0]), "/") + MakeKey(parts[1..])
  }

  /** The components that leave a trace in the key: the non-empty ones and the last. */
  function Canonical(parts: seq<string>): (r: seq<string>)
    requires parts != []
    ensures 1 <= |r| <= |parts| && r[|r| - 1] == parts[|parts| - 1]
  {
    if |parts| == 1 then parts
    else if parts[0] == "" then Canonical(parts[1..])
    else [parts[0]] + Canonical(parts[1..])
  }

  /** Reads a key back: cut at the bare slashes, unescape the pieces. */
  function SplitKey(key: string): seq<string>
    decreases |key|
  {
    var n := FirstBare(key, '/');
    if n == |key| then [Unescape(key)] else [Unescape(key[..n])] + SplitKey(key[n + 1..])
  }

  lemma SplitHead(a: string, rest: string)
    ensures SplitKey(Escape(a)) == [a]
    ensures SplitKey(Escape(a) + "/" + rest) == [a] + SplitKey(rest)
  {
    UnescapeEscape(a);
    NothingBare(a, "", '/');
    assert Escape(a) + "" == Escape(a);
    var t := Escape(a) + "/" + rest;
    assert t == Escape(a) + ("/" + rest);
    NothingBare(a, "/" + rest, '/');
    assert t[..|Escape(a)|] == Escape(a) && t[|Escape(a)| + 1..] == rest;
  }

  /** The key determines the canonical components. */
  lemma {:induction false} SplitMakeKey(parts: seq<string>)
    requires 1 <= |parts| <= 7
    ensures SplitKey(MakeKey(parts)) == Canonical(parts)
    decreases |parts|
  {
    EscapeLength(parts[0]);
    if |parts| == 1 {
      SplitHead(parts[0], "");
    } else {
      SplitMakeKey(parts[1..]);
      if parts[0] == "" {
        assert MakeKey(parts) == MakeKey(parts[1..]);
      } else {
        SplitHead(parts[0], MakeKey(parts[1..]));
      }
    }
  }

  /** And nothing else: empty components in front leave the key as it is. */
  lemma {:induction false} MakeKeyOfCanonical(parts: seq<string>)
    requires 1 <= |parts| <= 7
    ensures MakeKey(Canonical(parts)) == MakeKey(parts)
    decreases |parts|
  {
    if |parts| > 1 {
      MakeKeyOfCanonical(parts[1..]);
      EscapeLength(parts[0]);
      if parts[0] != "" {
        var c := Canonical(parts);
        assert c[1..] == Canonical(parts[1..]);
      }
    }
  }

  /** Two keys are equal exactly when their canonical components are, whatever the numbers of components. */
  lemma KeysEqualIff(p: seq<string>, q: seq<string>)
    requires 1 <= |p| <= 7 && 1 <= |q| <= 7
    ensures MakeKey(p) == MakeKey(q) <==> Canonical(p) == Canonical(q)
  {
    SplitMakeKey(p);
    SplitMakeKey(q);
    MakeKeyOfCanonical(p);
    MakeKeyOfCanonical(q);
  }

  lemma {:induction false} CanonicalOfFull(p: seq<string>)
    requires p != [] && forall i :: 0 <= i < |p| - 1 ==> p[i] != ""
    ensures Canonical(p) == p
  {
    if |p| > 1 {
      CanonicalOfFull(p[1..]);
    }
  }

  /** With no empty component before the last one, different components have different keys. */
  lemma MakeKeyInjective(p: seq<string>, q: seq<string>)
    requires 1 <= |p| <= 7 && 1 <= |q| <= 7
    requires forall i :: 0 <= i < |p| - 1 ==> p[i] != ""
    requires forall i :: 0 <= i < |q| - 1 ==> q[i] != ""
    ensures MakeKey(p) == MakeKey(q) ==> p == q
  {
    KeysEqualIff(p, q);
    CanonicalOfFull(p);
    CanonicalOfFull(q);
  }

  /** Two components never collide, empty or not. */
  lemma PairsInjective(a: string, b: string, c: string, d: string)
    ensures MakeKey([a, b]) == MakeKey([c, d]) ==> a == c && b == d
  {
    KeysEqualIff([a, b], [c, d]);
    assert [a, b][1..] == [b] && [c, d][1..] == [d];
    assert Canonical([a, b]) == if a == "" then [b] else [a, b];
    assert Canonical([c, d]) == if c == "" then [d] else [c, d];
    if MakeKey([a, b]) == MakeKey([c, d]) {
      assert |Canonical([a, b])| == |Canonical([c, d])|;
      assert Canonical([a, b])[0] == Canonical([c, d])[0];
    }
  }

  /** Three components can: an empty one in front is invisible. */
  lemma TriplesCollide(a: string, b: string)
    requires a != ""
    ensures MakeKey([a, "", b]) == MakeKey(["", a, b])
  {
    KeysEqualIff([a, "", b], ["", a, b]);
    assert [a, "", b][1..] == ["", b] && ["", b][1..] == [b];
    assert ["", a, b][1..] == [a, b] && [a, b][1..] == [b];
  }

  /** A key as it is stored: a slash between the components, and one with a backslash inside them. */
  lemma {:induction false} KeyExample()
    ensures MakeKey(["a", "b/c", "d"]) == "a/b\\/c/d"
  {
    var parts := ["a", "b/c", "d"];
    assert parts[1..] == ["b/c", "d"] && ["b/c", "d"][1..] == ["d"];
    assert Escape("a") == "a" && Escape("d") == "d";
    assert "b/c"[1..] == "/c" && "/c"[1..] == "c";
    assert Escape("c") == "c" && Escape("/c") == "\\/c" && Escape("b/c") == "b\\/c";
  }
}
