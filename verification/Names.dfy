/** Name truncation: internal/utils/name.go, and the upgrade Job names built with it. */
module Names {
  import opened Wrappers

  const NAME_LENGTH_LIMIT := 63
  const HASH_SUFFIX_LENGTH := 13
  const RANDOM_ALPHABET := "bcdfghjklmnpqrstvwxz2456789"

  /** A lower-case letter or digit. */
  predicate Alnum(c: char) {
    'a' <= c <= 'z' || '0' <= c <= '9'
  }

  /** A label of a host name: letters, digits and hyphens, no hyphen first or last. */
  predicate IsLabel(s: string) {
    s != "" && Alnum(s[0]) && Alnum(s[|s| - 1]) && forall c | c in s :: Alnum(c) || c == '-'
  }

  /** The dot-separated parts. */
  function Labels(s: string): seq<string> {
    if s == "" then [""]
    else if s[0] == '.' then [""] + Labels(s[1..])
    else [[s[0]] + Labels(s[1..])[0]] + Labels(s[1..])[1..]
  }

  /** Host-style subdomain names of RFC 1123 section 2.1, as Kubernetes writes them: in lower case. */
  predicate IsSubdomain(s: string) {
    forall l | l in Labels(s) :: IsLabel(l)
  }

  /** The same said of neighbouring characters. */
  predicate LocallyValid(s: string) {
    && s != "" && Alnum(s[0]) && Alnum(s[|s| - 1])
    && (forall c | c in s :: Alnum(c) || c == '-' || c == '.')
    && (forall i | 0 <= i < |s| - 1 :: s[i] == '.' ==> Alnum(s[i + 1]))
    && (forall i | 0 <= i < |s| - 1 :: s[i + 1] == '.' ==> Alnum(s[i]))
  }

  /** What has to hold of a name's rest after its first character. */
  predicate Continues(previous: char, s: string)
    decreases |s|
  {
    if s == "" then Alnum(previous)
    else
      && (Alnum(s[0]) || s[0] == '-' || s[0] == '.')
      && (previous == '.' ==> Alnum(s[0]))
      && (s[0] == '.' ==> Alnum(previous))
      && Continues(s[0], s[1..])
  }

  lemma {:induction false} ContinuesIsLocal(s: string)
    requires s != ""
    ensures Alnum(s[0]) && Continues(s[0], s[1..]) <==> LocallyValid(s)
  {
    ContinuesAt(s);
  }

  predicate RestIsLocal(s: string)
    requires s != ""
  {
    && Alnum(s[|s| - 1])
    && (forall c | c in s[1..] :: Alnum(c) || c == '-' || c == '.')
    && (forall i | 0 <= i < |s| - 1 :: s[i] == '.' ==> Alnum(s[i + 1]))
    && (forall i | 0 <= i < |s| - 1 :: s[i + 1] == '.' ==> Alnum(s[i]))
  }

  lemma {:induction false} ContinuesAt(s: string)
    requires s != ""
    ensures Continues(s[0], s[1..]) <==> RestIsLocal(s)
  {
    var t := s[1..];
    if t != "" {
      ContinuesAt(t);
      assert t == [t[0]] + t[1..];
      assert forall i | 0 <= i < |t| :: t[i] == s[i + 1];
      if RestIsLocal(s) {
        forall i | 0 <= i < |t| - 1 ensures (t[i] == '.' ==> Alnum(t[i + 1])) && (t[i + 1] == '.' ==> Alnum(t[i])) {
          assert t[i] == s[i + 1] && t[i + 1] == s[i + 2];
        }
        assert RestIsLocal(t);
      }
      if Continues(s[0], t) {
        forall i | 0 <= i < |s| - 1 ensures (s[i] == '.' ==> Alnum(s[i + 1])) && (s[i + 1] == '.' ==> Alnum(s[i])) {
          if i > 0 { assert s[i] == t[i - 1] && s[i + 1] == t[i]; }
        }
      }
    }
  }

  lemma {:induction false} LabelsNotEmpty(s: string)
    ensures Labels(s) != []
  {
    if s != "" { LabelsNotEmpty(s[1..]); }
  }

  predicate LabelChars(s: string) {
    forall c | c in s :: Alnum(c) || c == '-'
  }

  /** The labels of p + s, for a first label that starts with p, are those of the grammar. */
  lemma {:induction false} LabelsContinue(p: string, s: string)
    requires p != ""
    ensures Labels(s) != []
    ensures (IsLabel(p + Labels(s)[0]) && forall l | l in Labels(s)[1..] :: IsLabel(l)) <==>
            (Alnum(p[0]) && LabelChars(p) && Continues(p[|p| - 1], s))
    decreases |s|
  {
    LabelsNotEmpty(s);
    if s == "" {
      assert p + "" == p;
    } else {
      LabelsNotEmpty(s[1..]);
      var rest := Labels(s[1..]);
      if s[0] == '.' {
        assert p + "" == p;
        assert Labels(s)[1..] == rest;
        AfterDot(s[1..]);
        assert rest == [rest[0]] + rest[1..];
      } else {
        var q := p + [s[0]];
        assert p[|p| - 1] in p && q[|q| - 1] == s[0];
        LabelsContinue(q, s[1..]);
        assert p + Labels(s)[0] == q + rest[0] && Labels(s)[1..] == rest[1..];
        assert LabelChars(q) <==> LabelChars(p) && (Alnum(s[0]) || s[0] == '-') by {
          assert s[0] in q;
          assert forall c | c in p :: c in q;
        }
      }
    }
  }

  lemma {:induction false} AfterDot(s: string)
    ensures (forall l | l in Labels(s) :: IsLabel(l)) <==> Continues('.', s)
    decreases |s|
  {
    LabelsNotEmpty(s);
    if s == "" || s[0] == '.' {
      assert Labels(s)[0] == "" && Labels(s)[0] in Labels(s);
    } else {
      LabelsContinue([s[0]], s[1..]);
      assert Labels(s) == [Labels(s)[0]] + Labels(s)[1..];
    }
  }

  /** Label by label and character by character it is the same set of names. */
  lemma SubdomainIsLocal(s: string)
    ensures IsSubdomain(s) <==> LocallyValid(s)
  {
    AfterDot(s);
    if s != "" { ContinuesIsLocal(s); }
  }

  function HexDigit(v: nat): char
    requires v < 16
  {
    "0123456789abcdef"[v]
  }

  /** `%0*x`: the `width` lowest hex digits of v, leading zeros included. */
  function Hex(v: nat, width: nat): (s: string)
    ensures |s| == width
  {
    if width == 0 then "" else Hex(v / 16, width - 1) + [HexDigit(v % 16)]
  }

  function DigitValue(c: char): nat {
    if '0' <= c <= '9' then c as nat - '0' as nat
    else if 'a' <= c <= 'f' then c as nat - 'a' as nat + 10
    else 0
  }

  function HexValue(s: string): nat {
    if s == "" then 0 else 16 * HexValue(s[..|s| - 1]) + DigitValue(s[|s| - 1])
  }

  lemma HexDigitIsRead(v: nat)
    requires v < 16
    ensures DigitValue(HexDigit(v)) == v && Alnum(HexDigit(v))
  {
  }

  function Power16(k: nat): nat {
    if k == 0 then 1 else 16 * Power16(k - 1)
  }

  /** The digits denote the number, for every number that fits. */
  lemma {:induction false} HexIsRead(v: nat, width: nat)
    requires v < Power16(width)
    ensures HexValue(Hex(v, width)) == v
    ensures forall c | c in Hex(v, width) :: Alnum(c)
  {
    if width > 0 {
      HexIsRead(v / 16, width - 1);
      HexDigitIsRead(v % 16);
      assert Hex(v, width)[..width - 1] == Hex(v / 16, width - 1);
    }
  }

  function TrimRight(s: string): string {
    if s != "" && (s[|s| - 1] == '-' || s[|s| - 1] == '.') then TrimRight(s[..|s| - 1]) else s
  }

  lemma {:induction false} TrimRightMeaning(s: string)
    ensures TrimRight(s) <= s
    ensures TrimRight(s) != "" ==> TrimRight(s)[|TrimRight(s)| - 1] !in "-."
    ensures forall i | |TrimRight(s)| <= i < |s| :: s[i] in "-."
  {
    if s != "" && (s[|s| - 1] == '-' || s[|s| - 1] == '.') {
      TrimRightMeaning(s[..|s| - 1]);
    }
  }

  const TWO_TO_64 := 0x1_0000_0000_0000_0000

  /** `sum` is the 64-bit hash of the name; None stands for the slice out of range that a smaller limit leads to. */
  function TruncateNameWithHash(name: string, maxLength: int, sum: nat): Option<string> {
    var prefixLength := maxLength - HASH_SUFFIX_LENGTH;
    if |name| <= prefixLength then Some(name)
    else if prefixLength < 0 then None
    else
      var hash := Hex(sum, 16)[..12];
      var prefix := TrimRight(name[..prefixLength]);
      if prefix == "" then Some(hash) else Some(prefix + "-" + hash)
  }

  lemma PowersOf16()
    ensures Power16(12) == 0x1_0000_0000_0000 && Power16(16) == TWO_TO_64
  {
    assert Power16(4) == 0x1_0000;
    assert Power16(8) == 0x1_0000_0000;
    assert Power16(12) == 0x1_0000_0000_0000;
  }

  /** The first 12 of the 16 digits are the top 48 bits. */
  lemma TopDigits(sum: nat)
    ensures Hex(sum, 16)[..12] == Hex(sum / 0x1_0000, 12)
  {
    assert Hex(sum, 16) == Hex(sum / 16, 15) + [HexDigit(sum % 16)];
    assert Hex(sum / 16, 15) == Hex(sum / 16 / 16, 14) + [HexDigit(sum / 16 % 16)];
    assert sum / 16 / 16 / 16 / 16 == sum / 0x1_0000;
  }

  /** A prefix of a name that ends in a letter or digit is a name, and a hash may follow it. */
  lemma PrefixIsName(name: string, prefix: string, hash: string)
    requires LocallyValid(name) && prefix <= name && prefix != "" && prefix[|prefix| - 1] !in "-."
    requires hash != "" && forall c | c in hash :: Alnum(c)
    ensures LocallyValid(prefix + "-" + hash)
  {
    var r := prefix + "-" + hash;
    var k := |prefix|;
    assert prefix[k - 1] == name[k - 1] && name[k - 1] in name;
    assert r[k] == '-';
    forall i | 0 <= i < |r| ensures Alnum(r[i]) || r[i] == '-' || (r[i] == '.' && i < k - 1) {
      if i < k {
        assert r[i] == name[i] && name[i] in name;
        assert i == k - 1 ==> Alnum(r[i]);
      } else if i > k {
        assert r[i] == hash[i - k - 1] && hash[i - k - 1] in hash;
      }
    }
    assert r[|r| - 1] == hash[|hash| - 1] && hash[|hash| - 1] in hash;
    forall i | 0 <= i < |r| - 1 ensures r[i] == '.' ==> Alnum(r[i + 1]) {
      if r[i] == '.' { assert r[i] == name[i] && r[i + 1] == name[i + 1]; }
    }
    forall i | 0 <= i < |r| - 1 ensures r[i + 1] == '.' ==> Alnum(r[i]) {
      if r[i + 1] == '.' { assert r[i] == name[i] && r[i + 1] == name[i + 1]; }
    }
  }

  lemma AlnumIsName(s: string)
    requires s != "" && forall c | c in s :: Alnum(c)
    ensures LocallyValid(s)
  {
    forall i | 0 <= i < |s| ensures Alnum(s[i]) { assert s[i] in s; }
  }

  /** The digits that end up in the name: 12, the top 48 bits of the hash with their leading zeros. */
  lemma HashDigits(sum: nat)
    requires sum < TWO_TO_64
    ensures var hash := Hex(sum, 16)[..12];
            |hash| == 12 && HexValue(hash) == sum / 0x1_0000 && forall c | c in hash :: Alnum(c)
  {
    TopDigits(sum);
    PowersOf16();
    assert sum / 0x1_0000 < Power16(12);
    HexIsRead(sum / 0x1_0000, 12);
  }

  /**
   * A truncated name is a name and not too long; a short one is left alone; a long one ends in its hash, and keeps
   * what fits in front of it but for hyphens and dots at the end.
   */
  lemma TruncatedIsName(name: string, maxLength: int, sum: nat)
    requires IsSubdomain(name) && maxLength >= HASH_SUFFIX_LENGTH && sum < TWO_TO_64
    ensures var r := TruncateNameWithHash(name, maxLength, sum);
            && r.Some? && IsSubdomain(r.value) && |r.value| <= maxLength
            && (|name| <= maxLength - HASH_SUFFIX_LENGTH ==> r.value == name)
            && (|name| > maxLength - HASH_SUFFIX_LENGTH ==>
                  && |r.value| >= 12 && HexValue(r.value[|r.value| - 12..]) == sum / 0x1_0000
                  && (|r.value| > 12 <==> maxLength > HASH_SUFFIX_LENGTH)
                  && (|r.value| > 12 ==>
                        && r.value[|r.value| - 13] == '-' && r.value[..|r.value| - 13] <= name
                        && forall i | |r.value| - 13 <= i < maxLength - HASH_SUFFIX_LENGTH :: name[i] in "-."))
  {
    var n := maxLength - HASH_SUFFIX_LENGTH;
    if |name| > n {
      HashDigits(sum);
      CutMeaning(name, n);
      hide Hex, HexValue, TrimRight, IsSubdomain;
      HashedIsName(name, TrimRight(name[..n]), Hex(sum, 16)[..12]);
    }
  }

  /** What of a name stays in front of the hash. */
  lemma CutMeaning(name: string, n: nat)
    requires IsSubdomain(name) && n < |name|
    ensures var prefix := TrimRight(name[..n]);
            && prefix <= name && |prefix| <= n && (prefix != "" ==> prefix[|prefix| - 1] !in "-.")
            && (prefix == "" <==> n == 0)
            && forall i | |prefix| <= i < n :: name[i] in "-."
  {
    SubdomainIsLocal(name);
    TrimRightMeaning(name[..n]);
    if n > 0 { assert name[..n][0] == name[0] && name[0] !in "-."; }
    hide TrimRight, IsSubdomain;
    forall i | |TrimRight(name[..n])| <= i < n ensures name[i] in "-." { assert name[i] == name[..n][i]; }
  }

  lemma HashedIsName(name: string, prefix: string, hash: string)
    requires IsSubdomain(name) && prefix <= name && (prefix != "" ==> prefix[|prefix| - 1] !in "-.")
    requires |hash| == 12 && forall c | c in hash :: Alnum(c)
    ensures prefix == "" ==> IsSubdomain(hash) && hash[0..] == hash
    ensures prefix != "" ==>
              var r := prefix + "-" + hash;
              IsSubdomain(r) && r[|r| - 12..] == hash && r[|r| - 13] == '-' && r[..|r| - 13] == prefix
  {
    SubdomainIsLocal(name);
    SubdomainIsLocal(hash);
    SubdomainIsLocal(prefix + "-" + hash);
    hide IsSubdomain;
    if prefix == "" { AlnumIsName(hash); } else { PrefixIsName(name, prefix, hash); }
  }

  /** newJobName; `suffix` is what rand.String(5) drew. */
  function NewJobName(nodeOp: string, node: string, sum: nat, suffix: string): Option<string> {
    match TruncateNameWithHash(nodeOp + "-" + node, NAME_LENGTH_LIMIT - 6, sum)
    case Some(base) => Some(base + "-" + suffix)
    case None => None
  }

  lemma JoinedIsName(a: string, b: string)
    requires LocallyValid(a) && LocallyValid(b)
    ensures LocallyValid(a + "-" + b)
  {
    var r := a + "-" + b;
    var k := |a|;
    assert r[k] == '-';
    forall i | 0 <= i < |r| ensures Alnum(r[i]) || r[i] == '-' || (r[i] == '.' && i != k - 1 && i != k + 1) {
      if i < k {
        assert r[i] == a[i] && a[i] in a;
      } else if i > k {
        assert r[i] == b[i - k - 1] && b[i - k - 1] in b;
      }
    }
    forall i | 0 <= i < |r| - 1
      ensures (r[i] == '.' ==> Alnum(r[i + 1])) && (r[i + 1] == '.' ==> Alnum(r[i]))
    {
      if i + 1 < k {
        assert r[i] == a[i] && r[i + 1] == a[i + 1];
      } else if i > k {
        assert r[i] == b[i - k - 1] && r[i + 1] == b[i - k];
      }
    }
  }

  /** Every upgrade Job gets a name that Kubernetes takes, of at most 63 characters. */
  lemma JobNameFits(nodeOp: string, node: string, sum: nat, suffix: string)
    requires IsSubdomain(nodeOp) && IsSubdomain(node) && sum < TWO_TO_64
    requires |suffix| == 5 && forall c | c in suffix :: c in RANDOM_ALPHABET
    ensures var r := NewJobName(nodeOp, node, sum, suffix);
            && r.Some? && |r.value| <= NAME_LENGTH_LIMIT && IsSubdomain(r.value)
            && |r.value| > 6 && r.value[|r.value| - 6..] == "-" + suffix
            && (|nodeOp| + |node| <= 43 ==> r.value == nodeOp + "-" + node + "-" + suffix)
  {
    var full := nodeOp + "-" + node;
    SubdomainIsLocal(nodeOp);
    SubdomainIsLocal(node);
    JoinedIsName(nodeOp, node);
    SubdomainIsLocal(full);
    TruncatedIsName(full, NAME_LENGTH_LIMIT - 6, sum);
    var base := TruncateNameWithHash(full, NAME_LENGTH_LIMIT - 6, sum).value;
    SubdomainIsLocal(base);
    AlnumIsName(suffix);
    JoinedIsName(base, suffix);
    SubdomainIsLocal(base + "-" + suffix);
  }
}
