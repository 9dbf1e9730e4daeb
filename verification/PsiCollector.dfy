/** ts/internal/packets/psi.go: PSI sections out of transport packet payloads
  * (sections 2.4.4.1 and 2.4.4.2 of ISO/IEC 13818-1).
  */
module PsiCollector {
  import opened Bytes

  const STUFFING: byte := 0xFF
  const MAX_LENGTH := 1021

  /** section_length, from the header of a section. */
  function SectionLength(d: seq<byte>): nat
    requires |d| >= 3
  {
    d[1] as int % 16 * 256 + d[2] as int
  }

  // ---- the definition ----

  datatype Scanned = Invalid | Sections(sections: seq<seq<byte>>, rest: seq<byte>)

  /** The complete sections at the front of d, and what is kept for later. Stuffing where
    * a section should start discards everything behind it. */
  function Scan(d: seq<byte>): Scanned
    decreases |d|
  {
    if d == [] || d[0] == STUFFING then Sections([], [])
    else if |d| < 3 then Sections([], d)
    else if SectionLength(d) > MAX_LENGTH then Invalid
    else if |d| < 3 + SectionLength(d) then Sections([], d)
    else Prepend(d[..3 + SectionLength(d)], Scan(d[3 + SectionLength(d)..]))
  }

  function Prepend(section: seq<byte>, s: Scanned): Scanned {
    if s.Invalid? then Invalid else Sections([section] + s.sections, s.rest)
  }

  /** One payload: without PUSI it continues what is kept; with PUSI the pointer field says
    * how many of its bytes do, and what is still incomplete after them is dropped. */
  function ConsumeOne(kept: seq<byte>, pusi: bool, payload: seq<byte>): Scanned {
    if !pusi then Scan(kept + payload)
    else if payload == [] || payload[0] as int > |payload| - 1 then Invalid
    else
      var pointer := payload[0] as int;
      if kept == [] then Scan(payload[1 + pointer..])
      else
        match Scan(kept + payload[1..1 + pointer])
        case Invalid => Invalid
        case Sections(before, _) =>
          match Scan(payload[1 + pointer..])
          case Invalid => Invalid
          case Sections(after, rest) => Sections(before + after, rest)
  }

  // ---- the collector ----

  class SectionCollector {
    var buf: seq<byte>

    constructor ()
      ensures buf == []
    {
      buf := [];
    }

    /** Every turn of the loop takes a section of at least three bytes. */
    method Append(payload: seq<byte>) returns (ok: bool, sections: seq<seq<byte>>)
      modifies this
      ensures ok <==> Scan(old(buf) + payload).Sections?
      ensures ok ==> Scan(old(buf) + payload) == Sections(sections, buf)
    {
      buf := buf + payload;
      ghost var all := buf;
      sections := [];
      while true
        invariant Scan(all) == PrependAll(sections, Scan(buf))
        decreases |buf|
      {
        if buf == [] {
          return true, sections;
        }
        if buf[0] == STUFFING {
          buf := [];
          return true, sections;
        }
        if |buf| < 3 {
          return true, sections;
        }
        var sectionLength := buf[1] as int % 16 * 256 + buf[2] as int;
        if sectionLength > MAX_LENGTH {
          return false, [];
        }
        var totalLength := 3 + sectionLength;
        if |buf| < totalLength {
          return true, sections;
        }
        PrependAllSnoc(sections, buf[..totalLength], Scan(buf[totalLength..]));
        sections := sections + [buf[..totalLength]];
        buf := buf[totalLength..];
      }
    }

    method Consume(pusi: bool, payload: seq<byte>) returns (ok: bool, sections: seq<seq<byte>>)
      modifies this
      ensures ok <==> ConsumeOne(old(buf), pusi, payload).Sections?
      ensures ok ==> ConsumeOne(old(buf), pusi, payload) == Sections(sections, buf)
    {
      sections := [];
      if !pusi {
        ok, sections := Append(payload);
        return;
      }
      if |payload| == 0 {
        return false, [];
      }
      var pointerField := payload[0] as int;
      if pointerField > |payload| - 1 {
        return false, [];
      }
      if |buf| > 0 {
        var completed;
        ok, completed := Append(payload[1..1 + pointerField]);
        if !ok {
          return false, [];
        }
        sections := completed;
        buf := [];
      }
      assert buf + payload[1 + pointerField..] == payload[1 + pointerField..];
      var started;
      ok, started := Append(payload[1 + pointerField..]);
      sections := sections + started;
    }
  }

  function PrependAll(sections: seq<seq<byte>>, s: Scanned): Scanned {
    if s.Invalid? then Invalid else Sections(sections + s.sections, s.rest)
  }

  lemma PrependAllSnoc(sections: seq<seq<byte>>, section: seq<byte>, s: Scanned)
    ensures PrependAll(sections, Prepend(section, s)) == PrependAll(sections + [section], s)
  {
    if s.Sections? {
      ConcatAssociates(sections, [section], s.sections);
    }
  }

  // ---- sections that arrive in pieces ----

  /** A section that is not stuffing and agrees with its own length. */
  predicate SectionOk(s: seq<byte>) {
    |s| >= 3 && s[0] != STUFFING && SectionLength(s) <= MAX_LENGTH && |s| == 3 + SectionLength(s)
  }

  /** In terms of the bytes: not 0xFF, at most 1024 of them, and as many as the 12 bits say. */
  lemma SectionIs(s: seq<byte>)
    ensures SectionOk(s) <==>
      3 <= |s| <= 1024 && s[0] != 0xFF && (s[1] as int * 256 + s[2] as int) % 4096 == |s| - 3
  {
    if |s| >= 3 {
      TwelveBits(s[1], s[2]);
    }
  }

  lemma TwelveBits(a: byte, b: byte)
    ensures (a as int * 256 + b as int) % 4096 == a as int % 16 * 256 + b as int
  {
    var high: int, low: int := a, b;
    assert high * 256 + low == high / 16 * 4096 + (high % 16 * 256 + low);
  }

  ghost predicate AllOk(sections: seq<seq<byte>>) {
    forall i :: 0 <= i < |sections| ==> SectionOk(sections[i])
  }

  /** One section with something behind it, or only its beginning. */
  lemma ScanSection(s: seq<byte>, d: seq<byte>, more: seq<byte>)
    requires SectionOk(s)
    ensures Scan(s + more) == Prepend(s, Scan(more))
    ensures d <= s && d != s ==> Scan(d) == Sections([], d)
  {
    var all := s + more;
    assert SectionLength(all) == SectionLength(s);
    assert all[..|s|] == s && all[|s|..] == more;
    if d <= s && |d| >= 3 {
      assert SectionLength(d) == SectionLength(s);
    }
  }

  /** Whatever the beginning of a run of sections: the complete ones come out and the rest is kept. */
  lemma {:induction false} ScanBeginning(sections: seq<seq<byte>>, d: seq<byte>, later: seq<byte>) returns (n: nat)
    requires AllOk(sections) && d + later == Flatten(sections)
    ensures n <= |sections| && Scan(d).Sections? && Scan(d).sections == sections[..n]
    ensures Scan(d).rest + later == Flatten(sections[n..])
    decreases |sections|
  {
    if sections == [] {
      n := 0;
      assert d == [] && later == [];
    } else {
      var s, more := sections[0], sections[1..];
      if |d| < |s| {
        n := 0;
        FrontOfSection(s, Flatten(more), d, later);
        ScanSection(s, d, []);
        assert sections[0..] == sections && sections[..0] == [];
      } else {
        var tail := d[|s|..];
        BehindSection(s, Flatten(more), d, later);
        var m := ScanBeginning(more, tail, later);
        n := m + 1;
        ScanSection(s, [], tail);
        assert [s] + more[..m] == sections[..n] && more[m..] == sections[n..];
      }
    }
  }

  lemma FrontOfSection(s: seq<byte>, more: seq<byte>, d: seq<byte>, later: seq<byte>)
    requires d + later == s + more && |d| < |s|
    ensures d <= s
  {
    assert d == (d + later)[..|d|] == (s + more)[..|d|] == s[..|d|];
  }

  lemma BehindSection(s: seq<byte>, more: seq<byte>, d: seq<byte>, later: seq<byte>)
    requires d + later == s + more && |d| >= |s|
    ensures d == s + d[|s|..] && d[|s|..] + later == more
  {
    assert d[..|s|] == (d + later)[..|s|] == (s + more)[..|s|] == s;
    assert d[|s|..] + later == (d + later)[|s|..] == (s + more)[|s|..] == more;
  }

  /** Payloads without PUSI, one after the other. */
  function ConsumeAll(kept: seq<byte>, payloads: seq<seq<byte>>): Scanned
    decreases |payloads|
  {
    if payloads == [] then Sections([], kept)
    else match Scan(kept + payloads[0])
      case Invalid => Invalid
      case Sections(first, rest) => PrependAll(first, ConsumeAll(rest, payloads[1..]))
  }

  /** A stuffing-free run of sections, cut anywhere, comes back exactly, and nothing is kept. */
  lemma {:induction false} PiecesComeBack(sections: seq<seq<byte>>, kept: seq<byte>, payloads: seq<seq<byte>>)
    requires AllOk(sections) && kept + Flatten(payloads) == Flatten(sections)
    requires payloads == [] ==> kept == []
    ensures ConsumeAll(kept, payloads) == Sections(sections, [])
    decreases |payloads|
  {
    if payloads == [] {
      NothingLeft(sections);
    } else {
      var d, later := kept + payloads[0], Flatten(payloads[1..]);
      ConcatAssociates(kept, payloads[0], later);
      var n := ScanBeginning(sections, d, later);
      var rest := Scan(d).rest;
      if payloads[1..] == [] {
        assert later == [] && d + later == d;
        ScanWhole(sections);
      }
      PiecesComeBack(sections[n..], rest, payloads[1..]);
      assert sections[..n] + sections[n..] == sections;
    }
  }

  lemma NothingLeft(sections: seq<seq<byte>>)
    requires AllOk(sections) && Flatten(sections) == []
    ensures sections == []
  {
    if sections != [] {
      NotEmpty(sections);
    }
  }

  lemma NotEmpty(sections: seq<seq<byte>>)
    requires AllOk(sections) && sections != []
    ensures |Flatten(sections)| >= 3
  {
    assert SectionOk(sections[0]);
  }

  /** When everything has arrived nothing is incomplete. */
  lemma {:induction false} ScanWhole(sections: seq<seq<byte>>)
    requires AllOk(sections)
    ensures Scan(Flatten(sections)) == Sections(sections, [])
    decreases |sections|
  {
    if sections != [] {
      ScanSection(sections[0], [], Flatten(sections[1..]));
      ScanWhole(sections[1..]);
      assert sections == [sections[0]] + sections[1..];
    }
  }

  /** The same with the first payload behind a pointer field that skips whatever is in front. */
  lemma RunComesBack(sections: seq<seq<byte>>, skipped: seq<byte>, payloads: seq<seq<byte>>)
    requires AllOk(sections) && payloads != [] && Flatten(payloads) == Flatten(sections) && |skipped| < 256
    ensures var first := ConsumeOne([], true, [|skipped|] + skipped + payloads[0]);
      first.Sections? && PrependAll(first.sections, ConsumeAll(first.rest, payloads[1..])) == Sections(sections, [])
  {
    var payload: seq<byte> := [|skipped|] + skipped + payloads[0];
    assert payload[1 + |skipped|..] == payloads[0];
    assert [] + payloads[0] == payloads[0];
    assert [] + Flatten(payloads) == Flatten(payloads);
    PiecesComeBack(sections, [], payloads);
  }

  /** A pointer field in the middle of a run loses nothing if the bytes in front of the
    * section it points at complete the sections before. */
  lemma PointerAtBoundary(kept: seq<byte>, before: seq<byte>, after: seq<byte>, done: seq<seq<byte>>,
    sections: seq<seq<byte>>, later: seq<byte>)
    returns (n: nat)
    requires AllOk(done) && AllOk(sections) && |before| < 256
    requires kept != [] && kept + before == Flatten(done) && after + later == Flatten(sections)
    ensures n <= |sections|
    ensures var r := ConsumeOne(kept, true, [|before|] + before + after);
      r.Sections? && r.sections == done + sections[..n] && r.rest + later == Flatten(sections[n..])
  {
    ScanWhole(done);
    ConsumePointer(kept, before, after);
    n := ScanBeginning(sections, after, later);
  }

  lemma ConsumePointer(kept: seq<byte>, before: seq<byte>, after: seq<byte>)
    requires kept != [] && |before| < 256 && Scan(kept + before).Sections?
    ensures ConsumeOne(kept, true, [|before|] + before + after) == PrependAll(Scan(kept + before).sections, Scan(after))
  {
    var payload: seq<byte> := [|before|] + before + after;
    assert payload[1..1 + |before|] == before && payload[1 + |before|..] == after;
  }

  /** Stuffing behind the last section hides the rest of the payload. */
  lemma {:induction false} StuffingEnds(sections: seq<seq<byte>>, hidden: seq<byte>)
    requires AllOk(sections)
    ensures Scan(Flatten(sections) + ([STUFFING] + hidden)) == Sections(sections, [])
    decreases |sections|
  {
    var tail := [STUFFING] + hidden;
    if sections == [] {
      assert [] + tail == tail;
    } else {
      ConcatAssociates(sections[0], Flatten(sections[1..]), tail);
      ScanSection(sections[0], [], Flatten(sections[1..]) + tail);
      StuffingEnds(sections[1..], hidden);
      assert sections == [sections[0]] + sections[1..];
    }
  }
}
