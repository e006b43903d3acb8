/** The shape of a nix store path's last component: `<hash>-<package>`. */
module StoreNames {
  import opened Options

  const NIX_BASE32 := "0123456789abcdfghijklmnpqrsvwxyz"
  const HASH_LENGTH := 32

  /** What `strings.ToLower` does to one character, as far as nix base32 can tell: the ASCII capitals, and the two
      characters beyond ASCII whose lower case is in it, the Kelvin sign (k) and the I with a dot above (i). */
  function Lower(c: char): char {
    if 'A' <= c <= 'Z' then c - 'A' + 'a'
    else if c == '\U{212A}' then 'k'
    else if c == '\U{0130}' then 'i'
    else c
  }

  function LowerAll(s: string): (r: string)
    ensures |r| == |s|
    ensures forall i :: 0 <= i < |s| ==> r[i] == Lower(s[i])
  {
    if s == [] then [] else [Lower(s[0])] + LowerAll(s[1..])
  }

  predicate IsHash(h: string) {
    |h| == HASH_LENGTH && forall i :: 0 <= i < |h| ==> h[i] in NIX_BASE32
  }

  /** Where `c` first stands in `s`, or |s|. */
  function IndexOf(s: string, c: char): (i: nat)
    ensures i <= |s|
    ensures c !in s[..i]
    ensures i < |s| ==> s[i] == c
  {
    if s == [] || s[0] == c then 0 else 1 + IndexOf(s[1..], c)
  }

  lemma {:induction false} IndexOfIs(s: string, c: char, i: nat)
    requires i < |s| && s[i] == c && c !in s[..i]
    ensures IndexOf(s, c) == i
  {
    if i == 0 {
    } else {
      assert s[0] == s[..i][0];
      assert s[1..][..i - 1] == s[..i][1..];
      IndexOfIs(s[1..], c, i - 1);
    }
  }

  /** The store path a component names, with its hash lowercased, or None. */
  function StoreName(name: string): Option<string> {
    var dash := IndexOf(name, '-');
    if dash == |name| then None
    else
      var hash := LowerAll(name[..dash]);
      if IsHash(hash) then Some(hash + name[dash..]) else None
  }

  /** Names that are already spelled the way their mount point is. */
  predicate Canonical(name: string) {
    StoreName(name) == Some(name)
  }

  lemma LowerKeepsHash(h: string)
    requires IsHash(h)
    ensures LowerAll(h) == h
  {
    forall i | 0 <= i < |h| ensures Lower(h[i]) == h[i] {
      LowerKeepsDigit(h[i]);
    }
  }

  lemma LowerKeepsDigit(c: char)
    requires c in NIX_BASE32
    ensures Lower(c) == c && c != '-' && c != '.'
  {
    var i :| 0 <= i < |NIX_BASE32| && NIX_BASE32[i] == c;
    DigitShape(i);
  }

  /** Digits and small letters, but for e, o, t and u. */
  predicate HashDigit(c: char) {
    '0' <= c <= '9' || ('a' <= c <= 'z' && c != 'e' && c != 'o' && c != 't' && c != 'u')
  }

  lemma DigitShape(i: nat)
    requires i < |NIX_BASE32|
    ensures HashDigit(NIX_BASE32[i])
  {
  }

  /** Naming a store path and naming its canonical spelling come to the same mount point. */
  lemma StoreNameIsCanonical(name: string)
    requires StoreName(name).Some?
    ensures Canonical(StoreName(name).value)
  {
    var dash := IndexOf(name, '-');
    var hash := LowerAll(name[..dash]);
    var r := hash + name[dash..];
    forall i | 0 <= i < |hash| ensures hash[i] != '-' {
      LowerKeepsDigit(hash[i]);
    }
    assert r[..|hash|] == hash && r[|hash|] == '-';
    IndexOfIs(r, '-', |hash|);
    LowerKeepsHash(hash);
    assert r[|hash|..] == name[dash..];
  }

  /** What a hash may be spelled with: those, their capitals, and the two characters beyond ASCII that have such a
      letter for a lower case. */
  predicate HashCharacter(c: char) {
    || HashDigit(c)
    || ('A' <= c <= 'Z' && c != 'E' && c != 'O' && c != 'T' && c != 'U')
    || c == '\U{212A}' || c == '\U{0130}'
  }

  /** The same character, or the small letter of a capital. */
  predicate SmallOf(small: char, c: char) {
    || (small == c && !('A' <= c <= 'Z') && c != '\U{212A}' && c != '\U{0130}')
    || ('A' <= c <= 'Z' && small as int - 'a' as int == c as int - 'A' as int)
    || (c == '\U{212A}' && small == 'k') || (c == '\U{0130}' && small == 'i')
  }

  predicate AllSmallOf(small: string, s: string) {
    |small| == |s| && forall i :: 0 <= i < |s| ==> SmallOf(small[i], s[i])
  }

  lemma LowerIsSmall(c: char)
    ensures SmallOf(Lower(c), c)
  {
  }

  lemma InTheAlphabet(c: char)
    requires HashDigit(c)
    ensures c in NIX_BASE32
  {
    var i := c as int - if c <= '9' then '0' as int else if c < 'e' then 'a' as int - 10
                        else if c < 'o' then 'a' as int - 9 else if c < 't' then 'a' as int - 8
                        else if c < 'u' then 'a' as int - 7 else 'a' as int - 6;
    assert NIX_BASE32[i] == c;
  }

  lemma LetterBack(c: char)
    ensures HashDigit(Lower(c)) <==> HashCharacter(c)
  {
  }

  lemma HashCharacterIs(c: char)
    ensures Lower(c) in NIX_BASE32 <==> HashCharacter(c)
  {
    if Lower(c) in NIX_BASE32 {
      var i :| 0 <= i < |NIX_BASE32| && NIX_BASE32[i] == Lower(c);
      DigitShape(i);
      LetterBack(c);
    }
    if HashCharacter(c) {
      LetterBack(c);
      InTheAlphabet(Lower(c));
    }
  }

  /** A component names a store path exactly when 32 hash characters stand before its first dash; it then names the one
      with those characters in lower case, and whatever follows them. Without a dash it names none. */
  lemma StoreNameIs(hash: string, rest: string)
    requires '-' !in hash
    ensures StoreName(hash) == None
    ensures var name := StoreName(hash + "-" + rest);
      && (name.Some? <==> |hash| == 32 && forall i :: 0 <= i < |hash| ==> HashCharacter(hash[i]))
      && (name.Some? ==> |name.value| == 32 + 1 + |rest| && name.value[32..] == "-" + rest
                         && AllSmallOf(name.value[..32], hash))
  {
    var name := hash + "-" + rest;
    assert IndexOf(hash, '-') == |hash|;
    assert name[..|hash|] == hash && name[|hash|] == '-' && name[|hash|..] == "-" + rest;
    IndexOfIs(name, '-', |hash|);
    var small := LowerAll(hash);
    forall i | 0 <= i < |hash| ensures SmallOf(small[i], hash[i])
      && (small[i] in NIX_BASE32 <==> HashCharacter(hash[i])) {
      LowerIsSmall(hash[i]);
      HashCharacterIs(hash[i]);
    }
    assert (small + name[|hash|..])[..|hash|] == small;
  }

  /** Nothing else is spelled the way its mount point is: 32 digits and small letters, a dash, and the package. */
  lemma CanonicalIs(hash: string, rest: string)
    requires '-' !in hash
    ensures Canonical(hash + "-" + rest) <==> |hash| == 32 && forall i :: 0 <= i < |hash| ==> HashDigit(hash[i])
  {
    StoreNameIs(hash, rest);
    var name := hash + "-" + rest;
    assert name[..|hash|] == hash;
    if |hash| == 32 && forall i :: 0 <= i < |hash| ==> HashDigit(hash[i]) {
      DigitsStay(StoreName(name).value[..32], hash);
      var found := StoreName(name).value;
      assert found == found[..32] + found[32..] == hash + ("-" + rest) == name;
    }
    if Canonical(name) {
      forall i | 0 <= i < |hash| ensures HashDigit(hash[i]) {
        assert HashCharacter(hash[i]) && SmallOf(name[..32][i], hash[i]);
      }
    }
  }

  lemma DigitsStay(small: string, s: string)
    requires AllSmallOf(small, s) && forall i :: 0 <= i < |s| ==> HashDigit(s[i])
    ensures small == s
  {
    forall i | 0 <= i < |s| ensures small[i] == s[i] {
      assert SmallOf(small[i], s[i]) && HashDigit(s[i]);
    }
  }

  lemma StoreNameIsOrdinary(name: string)
    requires StoreName(name).Some?
    ensures name != "" && name != "." && name != ".."
  {
  }
}
