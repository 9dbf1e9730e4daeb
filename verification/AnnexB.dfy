/** The byte stream format of Annex B, section B.1 of Rec. ITU-T H.264: NAL units
  * separated by start codes 00 00 01, with any number of further zeros before
  * each start code and at the end.
  */
module AnnexB {
  import opened Bytes
  import opened Wrappers

  /** `zeros` counts every zero of the start code prefix, so it is at least 2. */
  datatype Unit = Unit(zeros: nat, nal: seq<byte>)
  datatype Stream = Stream(units: seq<Unit>, trailing: nat)

  predicate StartCodeAt(data: seq<byte>, i: int) {
    0 <= i && i + 2 < |data| && data[i] == 0 && data[i + 1] == 0 && data[i + 2] == 1
  }

  ghost predicate NoStartCode(data: seq<byte>) {
    forall i :: !StartCodeAt(data, i)
  }

  /** A NAL unit is not empty, does not end in a zero and contains no start code. */
  ghost predicate NalOk(nal: seq<byte>) {
    nal != [] && nal[|nal| - 1] != 0 && NoStartCode(nal)
  }

  ghost predicate UnitOk(u: Unit) {
    u.zeros >= 2 && NalOk(u.nal)
  }

  ghost predicate StreamOk(s: Stream) {
    forall i :: 0 <= i < |s.units| ==> UnitOk(s.units[i])
  }

  function Render(s: Stream): seq<byte>
    decreases |s.units|
  {
    if s.units == [] then Zeros(s.trailing)
    else Zeros(s.units[0].zeros) + [1] + s.units[0].nal + Render(Stream(s.units[1..], s.trailing))
  }

  // ---- the splitter ----

  function LeadZeros(data: seq<byte>): (n: nat)
    ensures n <= |data|
    ensures data[..n] == Zeros(n)
    ensures n < |data| ==> data[n] != 0
  {
    if data == [] || data[0] != 0 then 0
    else
      var n := LeadZeros(data[1..]);
      assert data[..n + 1] == [0] + data[1..][..n];
      n + 1
  }

  /** Whether a NAL unit ends where `rest` begins: nothing but zeros, or a start code. */
  predicate Boundary(rest: seq<byte>) {
    var z := LeadZeros(rest);
    z == |rest| || (z >= 2 && rest[z] == 1)
  }

  /** Length of the NAL unit at the start of `data`. */
  function NalLength(data: seq<byte>): (n: nat)
    ensures n <= |data|
    decreases |data|
  {
    if Boundary(data) then 0
    else
      var z := LeadZeros(data);
      z + 1 + NalLength(data[z + 1..])
  }

  /** Splits a byte stream; None when data precedes the first start code or a NAL unit is empty. */
  function Split(data: seq<byte>): Option<Stream>
    decreases |data|
  {
    var z := LeadZeros(data);
    if z == |data| then Some(Stream([], z))
    else if z < 2 || data[z] != 1 then None
    else
      var rest := data[z + 1..];
      var n := NalLength(rest);
      if n == 0 then None
      else match Split(rest[n..])
        case None => None
        case Some(s) => Some(Stream([Unit(z, rest[..n])] + s.units, s.trailing))
  }

  /** Cutting a sequence at position z and again n positions later. */
  lemma CutAt<T>(data: seq<T>, z: nat, n: nat)
    requires z + 1 + n <= |data|
    ensures data[..z + 1 + n] == data[..z] + [data[z]] + data[z + 1..][..n]
    ensures data[z + 1 + n..] == data[z + 1..][n..]
    ensures data == data[..z] + [data[z]] + data[z + 1..][..n] + data[z + 1 + n..]
  {
  }

  lemma {:induction false} LeadZerosIs(n: nat, rest: seq<byte>)
    requires rest != [] ==> rest[0] != 0
    ensures LeadZeros(Zeros(n) + rest) == n
  {
    if n > 0 {
      assert (Zeros(n) + rest)[1..] == Zeros(n - 1) + rest;
      LeadZerosIs(n - 1, rest);
    } else {
      assert Zeros(n) + rest == rest;
    }
  }

  /** No start code begins before a non-zero byte and ends after it. */
  lemma NoStartCodePrepend(z: nat, b: byte, rest: seq<byte>)
    requires b != 0 && !(z >= 2 && b == 1)
    requires NoStartCode(rest)
    ensures NoStartCode(Zeros(z) + [b] + rest)
  {
    var data := Zeros(z) + [b] + rest;
    assert data[z] == b;
    forall i ensures !StartCodeAt(data, i) {
      assert !StartCodeAt(rest, i - z - 1);
    }
  }

  predicate UnfoldEnd(k: int) { true }

  /** A NAL unit of n bytes at the start of `data` may end there (kept folded until UnfoldEnd). */
  ghost predicate EndsAt(data: seq<byte>, n: nat) {
    forall k {:trigger UnfoldEnd(k)} :: UnfoldEnd(k) ==>
      n <= |data| && Boundary(data[n..]) && (n > 0 ==> NalOk(data[..n]))
  }

  lemma EndsHere(data: seq<byte>)
    requires Boundary(data)
    ensures NalLength(data) == 0 && EndsAt(data, 0)
  {
    assert data[0..] == data;
  }

  lemma EndsFurther(data: seq<byte>, z: nat, n: nat)
    requires z < |data| && data[..z] == Zeros(z) && data[z] != 0 && !(z >= 2 && data[z] == 1)
    requires EndsAt(data[z + 1..], n)
    ensures EndsAt(data, z + 1 + n)
  {
    assert UnfoldEnd(0);
    NalGrows(data, z, n);
  }

  predicate UnfoldLength(k: int) { true }

  /** n is where the NAL unit at the start of `data` ends (kept folded until UnfoldLength). */
  ghost predicate HasLength(data: seq<byte>, n: nat) {
    forall k {:trigger UnfoldLength(k)} :: UnfoldLength(k) ==> n == NalLength(data)
  }

  /** Either the NAL unit ends here, or it goes on behind the next non-zero byte. */
  lemma LookAhead(data: seq<byte>, n: nat) returns (z: nat)
    requires HasLength(data, n)
    ensures n == 0 ==> EndsAt(data, 0)
    ensures n > 0 ==> z < |data| && data[z] != 0 && !(z >= 2 && data[z] == 1) && data[..z] == Zeros(z)
    ensures n > 0 ==> n >= z + 1 && HasLength(data[z + 1..], n - z - 1)
  {
    assert UnfoldLength(0);
    z := LeadZeros(data);
    if Boundary(data) {
      EndsHere(data);
    } else {
      NalLengthStep(data, z);
    }
  }

  lemma {:induction false} LengthSound(data: seq<byte>, n: nat)
    requires HasLength(data, n)
    ensures EndsAt(data, n)
    decreases n
  {
    var z := LookAhead(data, n);
    if n > 0 {
      LengthSound(data[z + 1..], n - z - 1);
      EndsFurther(data, z, n - z - 1);
    }
  }

  /** Where the NAL unit ends a boundary begins, and up to there it is a proper NAL unit. */
  lemma NalLengthSound(data: seq<byte>)
    ensures EndsAt(data, NalLength(data))
  {
    LengthSound(data, NalLength(data));
  }

  lemma NalLengthStep(data: seq<byte>, z: nat)
    requires !Boundary(data) && z == LeadZeros(data)
    ensures z < |data| && data[z] != 0 && !(z >= 2 && data[z] == 1) && data[..z] == Zeros(z)
    ensures NalLength(data) == z + 1 + NalLength(data[z + 1..])
  {
  }

  /** Leading zeros and the byte behind them join the NAL unit that follows. */
  lemma NalGrows(data: seq<byte>, z: nat, n: nat)
    requires z < |data| && data[..z] == Zeros(z) && data[z] != 0 && !(z >= 2 && data[z] == 1)
    requires z + 1 + n <= |data| && (n > 0 ==> NalOk(data[z + 1..][..n]))
    ensures NalOk(data[..z + 1 + n]) && data[z + 1 + n..] == data[z + 1..][n..]
  {
    CutAt(data, z, n);
    NoStartCodePrepend(z, data[z], data[z + 1..][..n]);
    LastOf(data, z, n);
  }

  lemma LastOf(data: seq<byte>, z: nat, n: nat)
    requires z + 1 + n <= |data|
    ensures data[..z + 1 + n][z + n] == if n > 0 then data[z + 1..][..n][n - 1] else data[z]
  {
  }

  /** Peels the leading zeros and the first other byte off a NAL unit. */
  lemma NalPeel(nal: seq<byte>, z: nat)
    requires NalOk(nal) && z == LeadZeros(nal)
    ensures z < |nal| && !(z >= 2 && nal[z] == 1)
    ensures nal[z + 1..] != [] ==> NalOk(nal[z + 1..])
  {
    assert forall i :: 0 <= i < z ==> nal[i] == nal[..z][i] == 0;
    assert !StartCodeAt(nal, z - 2);
    var tail := nal[z + 1..];
    forall i ensures !StartCodeAt(tail, i) {
      assert !StartCodeAt(nal, i + z + 1);
    }
  }

  lemma PeelConcat(nal: seq<byte>, z: nat, rest: seq<byte>)
    requires z == LeadZeros(nal) < |nal|
    ensures LeadZeros(nal + rest) == z
    ensures (nal + rest)[z] == nal[z]
    ensures (nal + rest)[z + 1..] == nal[z + 1..] + rest
  {
    assert nal + rest == Zeros(z) + (nal[z..] + rest) by {
      assert nal == nal[..z] + nal[z..];
    }
    LeadZerosIs(z, nal[z..] + rest);
  }

  /** A NAL unit followed by a boundary is found at its full length. */
  lemma {:induction false} NalLengthComplete(nal: seq<byte>, rest: seq<byte>)
    requires nal != [] ==> NalOk(nal)
    requires Boundary(rest)
    ensures NalLength(nal + rest) == |nal|
    decreases |nal|
  {
    if nal == [] {
      assert nal + rest == rest;
    } else {
      var z := LeadZeros(nal);
      NalPeel(nal, z);
      var tail := nal[z + 1..];
      PeelConcat(nal, z, rest);
      NalLengthComplete(tail, rest);
    }
  }

  lemma RenderBoundary(s: Stream)
    requires StreamOk(s)
    ensures Boundary(Render(s))
  {
    if s.units == [] {
      LeadZerosIs(s.trailing, []);
      assert Zeros(s.trailing) + [] == Zeros(s.trailing);
    } else {
      var u := s.units[0];
      assert UnitOk(u);
      var after := u.nal + Render(Stream(s.units[1..], s.trailing));
      assert Render(s) == Zeros(u.zeros) + ([1] + after);
      LeadZerosIs(u.zeros, [1] + after);
    }
  }

  /** One more unit in front. */
  function Cons(u: Unit, s: Stream): Stream {
    Stream([u] + s.units, s.trailing)
  }

  lemma RenderCons(u: Unit, s: Stream)
    ensures Render(Cons(u, s)) == Zeros(u.zeros) + ([1] + (u.nal + Render(s)))
  {
    var t := Cons(u, s);
    assert Stream(t.units[1..], t.trailing) == s;
  }

  lemma StreamOkCons(u: Unit, s: Stream)
    requires UnitOk(u) && StreamOk(s)
    ensures StreamOk(Cons(u, s))
  {
    forall i | 0 <= i < |Cons(u, s).units| ensures UnitOk(Cons(u, s).units[i]) {
      if i > 0 {
        assert Cons(u, s).units[i] == s.units[i - 1];
      }
    }
  }

  lemma UnitBytes(data: seq<byte>, z: nat, n: nat)
    requires z + 1 + n <= |data| && data[..z] == Zeros(z) && data[z] == 1
    ensures data == Zeros(z) + ([1] + (data[z + 1..][..n] + data[z + 1..][n..]))
  {
    CutAt(data, z, n);
  }

  /** Whatever the splitter accepts renders back to the same bytes, with proper units. */
  lemma {:induction false} SplitSound(data: seq<byte>)
    requires Split(data).Some?
    ensures StreamOk(Split(data).value) && Render(Split(data).value) == data
    decreases |data|
  {
    var z := LeadZeros(data);
    if z == |data| {
      assert data == data[..z];
    } else {
      var rest := data[z + 1..];
      var n := NalLength(rest);
      var u, s := Unit(z, rest[..n]), Split(rest[n..]).value;
      NalLengthSound(rest);
      assert UnfoldEnd(0);
      SplitSound(rest[n..]);
      assert Split(data).value == Cons(u, s);
      StreamOkCons(u, s);
      RenderCons(u, s);
      UnitBytes(data, z, n);
    }
  }

  lemma SplitStep(data: seq<byte>, z: nat, after: seq<byte>, n: nat, s: Stream)
    requires z == LeadZeros(data) < |data| && z >= 2 && data[z] == 1 && after == data[z + 1..]
    requires n == NalLength(after) > 0 && Split(after[n..]) == Some(s)
    ensures Split(data) == Some(Cons(Unit(z, after[..n]), s))
  {
  }

  lemma FrontOf(zeros: nat, after: seq<byte>)
    ensures var data := Zeros(zeros) + ([1] + after);
      |data| > zeros && data[zeros] == 1 && data[zeros + 1..] == after
  {
  }

  lemma HalvesOf(nal: seq<byte>, more: seq<byte>)
    ensures (nal + more)[..|nal|] == nal && (nal + more)[|nal|..] == more
  {
  }

  /** The splitter takes a proper unit off the front of what it accepts. */
  lemma SplitCons(u: Unit, s: Stream, more: seq<byte>)
    requires UnitOk(u) && Boundary(more) && Split(more) == Some(s)
    ensures Split(Zeros(u.zeros) + ([1] + (u.nal + more))) == Some(Cons(u, s))
  {
    var after := u.nal + more;
    var data := Zeros(u.zeros) + ([1] + after);
    LeadZerosIs(u.zeros, [1] + after);
    FrontOf(u.zeros, after);
    NalLengthComplete(u.nal, more);
    HalvesOf(u.nal, more);
    SplitStep(data, u.zeros, after, |u.nal|, s);
  }

  /** Every proper stream is split back into its own units: the decomposition is unique. */
  lemma {:induction false} SplitComplete(s: Stream)
    requires StreamOk(s)
    ensures Split(Render(s)) == Some(s)
    decreases |s.units|
  {
    if s.units == [] {
      LeadZerosIs(s.trailing, []);
      assert Zeros(s.trailing) + [] == Zeros(s.trailing);
    } else {
      var u, more := s.units[0], Stream(s.units[1..], s.trailing);
      assert s == Cons(u, more);
      RenderBoundary(more);
      SplitComplete(more);
      RenderCons(u, more);
      SplitCons(u, more, Render(more));
    }
  }
}
