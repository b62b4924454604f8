/** Identifiers (src/node/node-defs/base-node.ts): node ids `n-<pad4(counter)>`,
    socket ids `<nodeId>-i-<pad4(k)>` / `<nodeId>-o-<pad4(k)>`, and the engine's
    recovery of a producer node id from a socket id (`/.*(?=-o-)/`). */
module NodeIds {
  import opened Wrappers
  import opened Sockets

  predicate IsDigit(c: char) { '0' <= c <= '9' }

  predicate AllDigits(s: string) { forall i :: 0 <= i < |s| ==> IsDigit(s[i]) }

  function DigitChar(d: nat): (c: char)
    requires d < 10
    ensures IsDigit(c)
  {
    ('0' as int + d) as char
  }

  function DigitValue(c: char): (d: nat)
    requires IsDigit(c)
    ensures d < 10
  {
    c as int - '0' as int
  }

  /** `n.toString()` for a non-negative integer: its shortest decimal numeral. */
  function Decimal(n: nat): (r: string)
    ensures 1 <= |r|
  {
    if n < 10 then [DigitChar(n)] else Decimal(n / 10) + [DigitChar(n % 10)]
  }

  /** The numeral is made of digits and has no leading zero. */
  lemma {:induction false} DecimalDigits(n: nat)
    ensures AllDigits(Decimal(n))
    ensures Decimal(n)[0] == '0' ==> n == 0
  {
    if n >= 10 {
      DecimalDigits(n / 10);
      assert Decimal(n)[0] == Decimal(n / 10)[0];
    }
  }

  /** The value of a decimal numeral (leading zeros allowed). */
  function ParseDecimal(s: string): nat
    requires AllDigits(s)
  {
    if s == [] then 0 else ParseDecimal(s[..|s| - 1]) * 10 + DigitValue(s[|s| - 1])
  }

  lemma {:induction false} ParseDecimalOfDecimal(n: nat)
    ensures AllDigits(Decimal(n)) && ParseDecimal(Decimal(n)) == n
  {
    DecimalDigits(n);
    if n >= 10 {
      var d := Decimal(n);
      assert d[..|d| - 1] == Decimal(n / 10);
      ParseDecimalOfDecimal(n / 10);
    }
  }

  function Repeat(c: char, k: nat): (r: string)
    ensures |r| == k && forall i :: 0 <= i < k ==> r[i] == c
  {
    if k == 0 then [] else [c] + Repeat(c, k - 1)
  }

  /** `s.padStart(width, fill)` for a one-character `fill`. */
  function PadStart(s: string, width: nat, fill: char): (r: string)
    ensures |r| == if |s| < width then width else |s|
  {
    if |s| < width then Repeat(fill, width - |s|) + s else s
  }

  /** The padded string is `s` preceded by fill characters only. */
  lemma PadStartShape(s: string, width: nat, fill: char)
    ensures var r := PadStart(s, width, fill);
      && r[|r| - |s|..] == s
      && forall i :: 0 <= i < |r| - |s| ==> r[i] == fill
  {
  }

  /** `n.toString().padStart(4, '0')`. */
  function Pad4(n: nat): (r: string)
    ensures 4 <= |r|
  {
    PadStart(Decimal(n), 4, '0')
  }

  /** The padded counter is all digits. */
  lemma Pad4Digits(n: nat)
    ensures AllDigits(Pad4(n))
  {
    DecimalDigits(n);
    PadStartShape(Decimal(n), 4, '0');
  }

  /** Leading zeros do not change the value of a numeral. */
  lemma {:induction false} LeadingZeros(z: string, s: string)
    requires forall i :: 0 <= i < |z| ==> z[i] == '0'
    requires AllDigits(s)
    ensures AllDigits(z + s) && ParseDecimal(z + s) == ParseDecimal(s)
  {
    if s == [] {
      assert z + s == z;
      AllZeros(z);
    } else {
      var t := z + s;
      assert t[..|t| - 1] == z + s[..|s| - 1];
      LeadingZeros(z, s[..|s| - 1]);
    }
  }

  lemma {:induction false} AllZeros(z: string)
    requires forall i :: 0 <= i < |z| ==> z[i] == '0'
    ensures AllDigits(z) && ParseDecimal(z) == 0
  {
    if z != [] {
      AllZeros(z[..|z| - 1]);
    }
  }

  /** The counter can be read back from its padded numeral. */
  lemma Pad4RoundTrip(n: nat)
    ensures AllDigits(Pad4(n)) && ParseDecimal(Pad4(n)) == n
  {
    var d := Decimal(n);
    var p := Pad4(n);
    PadStartShape(d, 4, '0');
    DecimalDigits(n);
    var z := p[..|p| - |d|];
    assert p == z + d;
    LeadingZeros(z, d);
    ParseDecimalOfDecimal(n);
  }

  lemma Pad4Injective(a: nat, b: nat)
    requires Pad4(a) == Pad4(b)
    ensures a == b
  {
    Pad4RoundTrip(a);
    Pad4RoundTrip(b);
  }

  /** The id the node constructor assigns from the static counter. */
  function NodeId(counter: nat): (r: string)
    ensures 6 <= |r| && r[..2] == "n-"
  {
    "n-" + Pad4(counter)
  }

  /** The counter a node id was made from. */
  lemma NodeIdRoundTrip(counter: nat)
    ensures AllDigits(NodeId(counter)[2..]) && ParseDecimal(NodeId(counter)[2..]) == counter
  {
    assert NodeId(counter)[2..] == Pad4(counter);
    Pad4RoundTrip(counter);
  }

  /** Successive counter values give distinct node ids. */
  lemma NodeIdsDistinct(a: nat, b: nat)
    requires a != b
    ensures NodeId(a) != NodeId(b)
  {
    if NodeId(a) == NodeId(b) {
      assert NodeId(a)[2..] == Pad4(a) && NodeId(b)[2..] == Pad4(b);
      Pad4Injective(a, b);
    }
  }

  function RoleTag(role: Role): string
  {
    if role == Input then "-i-" else "-o-"
  }

  /** The id `setSocketsId` gives the socket at shared index `index`. */
  function SocketId(nodeId: string, role: Role, index: nat): (r: string)
    ensures |r| == |nodeId| + 3 + |Pad4(index)| && r[..|nodeId|] == nodeId
  {
    nodeId + RoleTag(role) + Pad4(index)
  }

  /** Within one node, the role and the index can be told apart from the id. */
  lemma SocketIdInjective(nodeId: string, r1: Role, k1: nat, r2: Role, k2: nat)
    requires SocketId(nodeId, r1, k1) == SocketId(nodeId, r2, k2)
    ensures r1 == r2 && k1 == k2
  {
    var s1, s2 := SocketId(nodeId, r1, k1), SocketId(nodeId, r2, k2);
    assert s1[|nodeId| + 1] == (if r1 == Input then 'i' else 'o');
    assert s2[|nodeId| + 1] == (if r2 == Input then 'i' else 'o');
    assert s1[|nodeId| + 3..] == Pad4(k1);
    assert s2[|nodeId| + 3..] == Pad4(k2);
    Pad4Injective(k1, k2);
  }

  /** Socket ids of two nodes made by the counter coincide only for the same
      counter value, role and index: ids are unique across the whole graph. */
  lemma SocketIdsUnique(c1: nat, r1: Role, k1: nat, c2: nat, r2: Role, k2: nat)
    requires SocketId(NodeId(c1), r1, k1) == SocketId(NodeId(c2), r2, k2)
    ensures c1 == c2 && r1 == r2 && k1 == k2
  {
    var p1, p2 := Pad4(c1), Pad4(c2);
    DashAfterCounter(c1, r1, k1);
    DashAfterCounter(c2, r2, k2);
    var s := SocketId(NodeId(c1), r1, k1);
    assert p1 == s[2..2 + |p1|] == p2;
    Pad4Injective(c1, c2);
    SocketIdInjective(NodeId(c1), r1, k1, r2, k2);
  }

  /** In a socket id of a counter-made node, the counter's digits run from
      position 2 up to the first dash after it. */
  lemma DashAfterCounter(c: nat, r: Role, k: nat)
    ensures var s, p := SocketId(NodeId(c), r, k), Pad4(c);
      && 2 + |p| < |s| && s[2 + |p|] == '-' && s[2..2 + |p|] == p
      && forall i :: 2 <= i < 2 + |p| ==> IsDigit(s[i])
  {
    var s, p := SocketId(NodeId(c), r, k), Pad4(c);
    Pad4Digits(c);
    assert s == "n-" + p + (RoleTag(r) + Pad4(k));
  }

  /** A `-o-` marker starts at position `i` of `s`. */
  predicate MarkerAt(s: string, i: int)
  {
    0 <= i && i + 3 <= |s| && s[i] == '-' && s[i + 1] == 'o' && s[i + 2] == '-'
  }

  /** `s.match(/.*(?=-o-)/)`: the greedy match is everything before the LAST
      `-o-` marker, and there is no match when `s` has no marker. */
  function ProducerNodeId(s: string): (r: Option<string>)
    ensures r.None? <==> forall i :: 0 <= i < |s| ==> !MarkerAt(s, i)
    ensures r.Some? ==> |r.value| + 3 <= |s| && r.value == s[..|r.value|] && MarkerAt(s, |r.value|)
    ensures r.Some? ==> forall i :: |r.value| < i < |s| ==> !MarkerAt(s, i)
    decreases |s|
  {
    if |s| < 3 then None
    else if MarkerAt(s, |s| - 3) then Some(s[..|s| - 3])
    else
      var t := s[..|s| - 1];
      var r := ProducerNodeId(t);
      assert forall i :: 0 <= i < |s| ==> (MarkerAt(s, i) <==> MarkerAt(t, i)) by {
        forall i | 0 <= i < |s|
          ensures MarkerAt(s, i) <==> MarkerAt(t, i)
        {
          if i >= |s| - 3 {
            assert !MarkerAt(s, i) && !MarkerAt(t, i);
          }
        }
      }
      r
  }

  /** The engine's inverse of socket numbering: the prefix before `-o-` of an output
      socket id is the owning node's id, whatever that id is. */
  lemma ProducerOfOutputSocket(nodeId: string, k: nat)
    ensures ProducerNodeId(SocketId(nodeId, Output, k)) == Some(nodeId)
  {
    var s := SocketId(nodeId, Output, k);
    var n := |nodeId|;
    Pad4Digits(k);
    assert MarkerAt(s, n);
    assert forall i :: n < i < |s| ==> !MarkerAt(s, i) by {
      forall i | n < i < |s|
        ensures !MarkerAt(s, i)
      {
        if i == n + 1 {
          assert s[i] == 'o';
        } else if i == n + 2 {
          assert i + 1 < |s| ==> IsDigit(s[i + 1]);
        } else {
          assert IsDigit(s[i]);
        }
      }
    }
    var r := ProducerNodeId(s);
    assert r.Some?;
    assert |r.value| == n;
  }

  /** The input socket ids of a counter-made node never parse as a producer. */
  lemma NoProducerInInputSocket(c: nat, k: nat)
    ensures ProducerNodeId(SocketId(NodeId(c), Input, k)) == None
  {
    var s := SocketId(NodeId(c), Input, k);
    var p := Pad4(c);
    Pad4Digits(c);
    Pad4Digits(k);
    assert s == "n-" + p + "-i-" + Pad4(k);
    forall i | 0 <= i < |s|
      ensures !MarkerAt(s, i)
    {
      if i < 2 {
        assert s[1] == '-' && s[0] == 'n';
        assert i == 1 ==> s[2] == p[0];
      } else if i < 2 + |p| {
        assert IsDigit(s[i]);
      } else if i == 2 + |p| {
        assert s[i + 1] == 'i';
      } else if i == 3 + |p| {
        assert s[i] == 'i';
      } else if i == 4 + |p| {
        assert i + 1 < |s| ==> IsDigit(s[i + 1]);
      } else {
        assert IsDigit(s[i]);
      }
    }
  }
}
