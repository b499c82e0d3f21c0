/**
  The string keys the distillation wrapper builds with `str.format`:
  "main_out{i}" / "peer_out{i}" for class-group logits and
  "main_kl_loss{i}" / "peer_kl_loss{i}" for the cross-model KL terms.
  The keys are rendered exactly as strings, and the rendering is proved
  injective, so a structured (role, index) pair and its string stand for
  each other.
 */
module Keys {

  /** The two sub-models of the wrapper. */
  datatype Role = Main | Peer

  function RoleName(r: Role): (s: string)
    ensures |s| == 4
  {
    match r
    case Main => "main"
    case Peer => "peer"
  }

  function DigitChar(d: nat): (c: char)
    requires d < 10
    ensures '0' <= c <= '9'
  {
    (48 + d) as char
  }

  function DigitValue(c: char): int {
    c as int - 48
  }

  /** Decimal rendering of a non-negative integer, as Python's `format` writes it. */
  function NatToString(n: nat): (s: string)
    ensures |s| >= 1
    ensures forall k :: 0 <= k < |s| ==> '0' <= s[k] <= '9'
    ensures s[0] == '0' <==> n == 0
    decreases n
  {
    if n < 10 then [DigitChar(n)] else NatToString(n / 10) + [DigitChar(n % 10)]
  }

  /** Reads a string of decimal digits back as a number. */
  function ParseDecimal(s: string): int
    decreases |s|
  {
    if |s| == 0 then 0 else 10 * ParseDecimal(s[..|s| - 1]) + DigitValue(s[|s| - 1])
  }

  lemma {:induction false} ParseRendered(n: nat)
    ensures ParseDecimal(NatToString(n)) == n
    decreases n
  {
    if n >= 10 {
      var s := NatToString(n);
      assert s[..|s| - 1] == NatToString(n / 10);
      ParseRendered(n / 10);
    }
  }

  lemma RenderInjective(a: nat, b: nat)
    ensures NatToString(a) == NatToString(b) ==> a == b
  {
    ParseRendered(a);
    ParseRendered(b);
  }

  /** Two strings with equally long prefixes are equal only if prefixes and suffixes are. */
  lemma SplitEqual(p1: string, x1: string, p2: string, x2: string)
    requires |p1| == |p2|
    ensures p1 + x1 == p2 + x2 ==> p1 == p2 && x1 == x2
  {
    if p1 + x1 == p2 + x2 {
      assert p1 == (p1 + x1)[..|p1|];
      assert p2 == (p2 + x2)[..|p2|];
      assert x1 == (p1 + x1)[|p1|..];
      assert x2 == (p2 + x2)[|p2|..];
    }
  }

  /** "main_out{i}" / "peer_out{i}": the logits of class-group i of a sub-model. */
  function OutKey(r: Role, i: nat): string {
    RoleName(r) + "_out" + NatToString(i)
  }

  /** "main_kl_loss{i}" / "peer_kl_loss{i}": the KL term of class-group i in one direction. */
  function KLKey(r: Role, i: nat): string {
    RoleName(r) + "_kl_loss" + NatToString(i)
  }

  lemma KLKeyInjective(r1: Role, i1: nat, r2: Role, i2: nat)
    ensures KLKey(r1, i1) == KLKey(r2, i2) <==> r1 == r2 && i1 == i2
  {
    if KLKey(r1, i1) == KLKey(r2, i2) {
      SplitEqual(RoleName(r1) + "_kl_loss", NatToString(i1), RoleName(r2) + "_kl_loss", NatToString(i2));
      assert RoleName(r1) == (RoleName(r1) + "_kl_loss")[..4];
      assert RoleName(r2) == (RoleName(r2) + "_kl_loss")[..4];
      RenderInjective(i1, i2);
    }
  }

  lemma OutKeyInjective(r1: Role, i1: nat, r2: Role, i2: nat)
    ensures OutKey(r1, i1) == OutKey(r2, i2) <==> r1 == r2 && i1 == i2
  {
    if OutKey(r1, i1) == OutKey(r2, i2) {
      SplitEqual(RoleName(r1) + "_out", NatToString(i1), RoleName(r2) + "_out", NatToString(i2));
      assert RoleName(r1) == (RoleName(r1) + "_out")[..4];
      assert RoleName(r2) == (RoleName(r2) + "_out")[..4];
      RenderInjective(i1, i2);
    }
  }

  /** The keys of class-group 0, written out. */
  lemma GroupZeroKeys()
    ensures KLKey(Main, 0) == "main_kl_loss0" && KLKey(Peer, 0) == "peer_kl_loss0"
    ensures OutKey(Main, 0) == "main_out0" && OutKey(Peer, 0) == "peer_out0"
  {
    assert NatToString(0) == "0";
  }
}
