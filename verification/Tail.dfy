/** Keeping the last bytes of a stream of unknown length in one reused buffer. */
module Tail {

  type Byte = bv8
  const READ_SIZE: nat := 4096

  datatype Ending = More | Eof | Broken

  /** One read: its bytes, which may come together with the end. */
  datatype Read = Read(bytes: seq<Byte>, ending: Ending)

  datatype Result = Ok(tail: seq<Byte>) | Failed

  /** What the reader delivers up to its end. */
  function Delivered(script: seq<Read>): seq<Byte> {
    if script == [] then []
    else script[0].bytes + if script[0].ending == More then Delivered(script[1..]) else []
  }

  predicate Breaks(script: seq<Read>) {
    script != [] && (script[0].ending == Broken || (script[0].ending == More && Breaks(script[1..])))
  }

  function Last(s: seq<Byte>, n: nat): seq<Byte> {
    if |s| <= n then s else s[|s| - n..]
  }

  /** A slice of an array: `len` bytes from `off`. */
  datatype Slice = Slice(data: array<Byte>, off: nat, len: nat)

  ghost predicate SliceOk(b: Slice)
  {
    b.off + b.len <= b.data.Length
  }

  function Bytes(b: Slice): seq<Byte>
    requires SliceOk(b)
    reads b.data
  {
    b.data[b.off..b.off + b.len]
  }

  /** `append`: in place while the array has room behind the slice, else into a new array. */
  method Append(b: Slice, chunk: seq<Byte>) returns (r: Slice)
    requires SliceOk(b)
    modifies b.data
    ensures SliceOk(r) && Bytes(r) == old(Bytes(b)) + chunk
    ensures r.data == b.data || fresh(r.data)
  {
    var end := b.off + b.len;
    if end + |chunk| <= b.data.Length {
      ghost var kept := Bytes(b);
      for i := 0 to |chunk|
        invariant b.data[b.off..end] == kept
        invariant b.data[end..end + i] == chunk[..i]
      {
        b.data[end + i] := chunk[i];
      }
      r := Slice(b.data, b.off, b.len + |chunk|);
      assert Bytes(r) == b.data[b.off..end] + b.data[end..end + |chunk|];
    } else {
      var whole := b.data[b.off..end] + chunk;
      var data := new Byte[2 * |whole|](i => 0);
      for i := 0 to |whole|
        invariant data[..i] == whole[..i]
      {
        data[i] := whole[i];
      }
      r := Slice(data, 0, |whole|);
    }
  }

  /** The buffer's part in one read: what it holds stays the last bytes of all there were. */
  method Keep(buf: Slice, chunk: seq<Byte>, maxBytes: nat, ghost seen: seq<Byte>) returns (r: Slice)
    requires maxBytes > 0 && SliceOk(buf) && Bytes(buf) == Last(seen, maxBytes)
    modifies buf.data
    ensures SliceOk(r) && Bytes(r) == Last(seen + chunk, maxBytes)
    ensures r.data == buf.data || fresh(r.data)
  {
    LastOfMore(seen, chunk, maxBytes);
    hide Last;
    if |chunk| >= maxBytes {
      r := Append(buf.(len := 0), chunk[|chunk| - maxBytes..]);
    } else {
      var overflow := buf.len + |chunk| - maxBytes;
      if overflow > 0 {
        r := Append(Slice(buf.data, buf.off + overflow, buf.len - overflow), chunk);
      } else {
        r := Append(buf, chunk);
      }
    }
  }

  /** `readTail` returns exactly the last `maxBytes` bytes delivered, or all of them if fewer. */
  method ReadTail(script: seq<Read>, maxBytes: int) returns (result: Result)
    requires forall r :: r in script ==> |r.bytes| <= READ_SIZE
    ensures maxBytes <= 0 ==> result == Ok([])
    ensures maxBytes > 0 ==> result == if Breaks(script) then Failed else Ok(Last(Delivered(script), maxBytes))
  {
    hide Last, Delivered, Breaks;
    if maxBytes <= 0 { return Ok([]); }
    var data := new Byte[maxBytes](i => 0);
    var buf := Slice(data, 0, 0);
    ghost var seen: seq<Byte> := [];
    NothingRead(maxBytes);
    assert script[0..] == script;
    for k := 0 to |script|
      invariant fresh(buf.data) && SliceOk(buf) && Bytes(buf) == Last(seen, maxBytes)
      invariant Delivered(script) == seen + Delivered(script[k..])
      invariant Breaks(script) == Breaks(script[k..])
    {
      var chunk := script[k].bytes;
      OneRead(script, k, seen);
      if |chunk| > 0 {
        buf := Keep(buf, chunk, maxBytes, seen);
      } else {
        assert seen + chunk == seen;
      }
      seen := seen + chunk;
      if script[k].ending != More {
        if script[k].ending == Eof { return Ok(Bytes(buf)); }
        return Failed;
      }
    }
    assert script[|script|..] == [] && seen + [] == seen;
    result := Ok(Bytes(buf));
  }

  lemma NothingRead(n: nat)
    ensures Last([], n) == [] && Delivered([]) == [] && !Breaks([])
  {
  }

  lemma OneRead(script: seq<Read>, k: nat, seen: seq<Byte>)
    requires k < |script|
    ensures
      var r := script[k];
      && seen + Delivered(script[k..]) == (if r.ending == More then seen + r.bytes + Delivered(script[k + 1..])
           else seen + r.bytes)
      && (Breaks(script[k..]) <==> r.ending == Broken || (r.ending == More && Breaks(script[k + 1..])))
  {
    assert script[k..][1..] == script[k + 1..];
  }

  lemma LastOfMore(seen: seq<Byte>, chunk: seq<Byte>, n: nat)
    ensures
      var before := Last(seen, n);
      Last(seen + chunk, n) ==
      if |chunk| >= n then chunk[|chunk| - n..]
      else if |before| + |chunk| > n then before[|before| + |chunk| - n..] + chunk
      else before + chunk
  {
  }
}
