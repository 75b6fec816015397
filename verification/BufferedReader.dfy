/**
 The buffered reader: a window of a fixed storage block, compacted in place and
 refilled from a source. `consumed` is the history of the bytes that left the
 window, in order. A source is any finite script of replies; it may deliver less
 than asked for, and a read of no bytes is the end of the stream.
 */
module BufferedReader {
  import opened Prelude

  type Byte = bv8
  datatype Errno = EMSGSIZE | SourceError(code: nat)

  const NEWLINE: Byte := 10
  const RETURN: Byte := 13

  datatype Reply = Chunk(data: seq<Byte>) | Failure(code: nat)

  /** Bytes a script can still deliver, counting a step for every reply. */
  function Left(script: seq<Reply>): nat {
    if script == [] then 0
    else 1 + (if script[0].Chunk? then |script[0].data| else 0) + Left(script[1..])
  }

  class Source {
    var script: seq<Reply>
    ghost var taken: seq<Byte>        // every byte delivered so far
    ghost var ended: bool             // the last read delivered nothing

    constructor (script: seq<Reply>)
      ensures this.script == script && taken == [] && !ended
    {
      this.script, taken, ended := script, [], false;
    }

    /** Reads at most hi - lo bytes into a[lo..hi]. */
    method Read(a: array<Byte>, lo: nat, hi: nat) returns (r: Result<nat, Errno>)
      requires lo < hi <= a.Length
      modifies this, a
      ensures r.Ok? ==> r.value <= hi - lo && taken == old(taken) + a[lo..lo + r.value] && ended == (r.value == 0)
      ensures r.Ok? ==> forall i :: 0 <= i < a.Length && !(lo <= i < lo + r.value) ==> a[i] == old(a[i])
      ensures r.Ok? && r.value > 0 ==> Left(script) < old(Left(script))
      ensures r.Err? ==> r.error.SourceError? && taken == old(taken) && a[..] == old(a[..])
      ensures Left(script) <= old(Left(script))
    {
      if script == [] {
        ended := true;
        return Ok(0);
      }
      var reply := script[0];
      if reply.Failure? {
        script := script[1..];
        return Err(SourceError(reply.code));
      }
      var n := if |reply.data| < hi - lo then |reply.data| else hi - lo;
      forall i | 0 <= i < n { a[lo + i] := reply.data[i]; }
      assert a[lo..lo + n] == reply.data[..n];
      taken, ended := taken + reply.data[..n], n == 0;
      script := if n == |reply.data| then script[1..] else [Chunk(reply.data[n..])] + script[1..];
      r := Ok(n);
    }
  }

  lemma CutsAtDelimiter(out: seq<Byte>, w: seq<Byte>, delimiter: Byte)
    requires w != [] && delimiter !in out && delimiter !in w[..|w| - 1] && w[|w| - 1] == delimiter
    ensures var chunk := out + w; delimiter !in chunk[..|chunk| - 1] && chunk[|chunk| - 1] == delimiter
  {
    assert (out + w)[..|out + w| - 1] == out + w[..|w| - 1];
  }

  class Reader {
    const source: Source
    const storage: array<Byte>
    const capacity: nat
    var begin: nat
    var end: nat
    ghost var consumed: seq<Byte>

    ghost predicate Shape()
      reads this
    {
      0 < capacity <= storage.Length && begin <= end <= capacity
    }

    /** The buffered bytes. */
    ghost function Window(): seq<Byte>
      requires Shape()
      reads this, storage
    {
      storage[begin..end]
    }

    /** What left the window followed by what is in it is what was taken from the source. */
    ghost predicate Valid()
      reads this, storage, source
    {
      Shape() && consumed + Window() == source.taken
    }

    /** `pooled` is the block the pool supplies, possibly larger than asked for. */
    constructor (source: Source, capacity: nat, pooled: array<Byte>)
      requires pooled.Length >= if capacity == 0 then 1 else capacity
      ensures Valid() && this.source == source && storage == pooled && Window() == [] && consumed == source.taken
      ensures this.capacity == if capacity == 0 then 1 else capacity
    {
      this.source, storage := source, pooled;
      this.capacity := if capacity == 0 then 1 else capacity;
      begin, end, consumed := 0, 0, source.taken;
    }

    function Buffered(): nat
      requires Shape()
      reads this
    {
      end - begin
    }

    /** Moves the window to the front of the storage. */
    method Compact()
      requires Shape()
      modifies `begin, `end, storage
      ensures Shape() && begin == 0 && Window() == old(Window())
    {
      if begin == end {
        begin, end := 0, 0;
      } else if begin > 0 {
        var held, i := end - begin, 0;
        while i < held
          invariant 0 <= i <= held && begin == old(begin) && end == old(end)
          invariant forall k :: 0 <= k < i ==> storage[k] == old(storage[begin + k])
          invariant forall k :: i <= k < storage.Length ==> storage[k] == old(storage[k])
        {
          storage[i] := storage[begin + i];
          i := i + 1;
        }
        begin, end := 0, held;
      }
    }

    /** fill(): new bytes go behind the window; nothing new means end of stream or a full window. */
    method Fill() returns (r: Result<(), Errno>)
      requires Valid()
      modifies `begin, `end, storage, source
      ensures Valid() && old(Window()) <= Window()
      ensures source.taken == old(source.taken) + Window()[|old(Window())|..]
      ensures r.Ok? && Window() == old(Window()) ==> source.ended || |Window()| == capacity
      ensures r.Ok? && Window() != old(Window()) ==> Left(source.script) < old(Left(source.script))
      ensures r.Err? ==> r.error.SourceError? && Window() == old(Window())
      ensures Left(source.script) <= old(Left(source.script))
    {
      Compact();
      if end == capacity { return Ok(()); }
      ghost var held := Window();
      var n := source.Read(storage, end, capacity);
      if n.Err? {
        assert storage[begin..end] == held;
        return Err(n.error);
      }
      end := end + n.value;
      assert Window() == held + storage[|held|..end];
      r := Ok(());
    }

    /** n bytes of the window are used up. */
    method Consume(n: nat)
      requires Valid() && n <= Buffered()
      modifies `begin, `consumed
      ensures Valid() && consumed == old(consumed) + old(Window())[..n] && Window() == old(Window())[n..]
    {
      assert storage[begin..begin + n] == Window()[..n];
      consumed := consumed + storage[begin..begin + n];
      begin := begin + n;
      assert old(Window()) == old(Window())[..n] + Window();
    }

    /** A request the buffer would only slow down goes straight to the source. */
    method ReadPast(out: array<Byte>) returns (r: Result<nat, Errno>)
      requires Valid() && out != storage && begin == end && out.Length > 0
      modifies `consumed, source, out
      ensures Valid() && (r.Ok? ==> r.value <= out.Length && consumed == old(consumed) + out[..r.value])
      ensures r.Ok? ==> forall i :: r.value <= i < out.Length ==> out[i] == old(out[i])
      ensures r.Ok? && r.value == 0 ==> source.ended
      ensures r.Err? ==> consumed == old(consumed) && out[..] == old(out[..])
    {
      r := source.Read(out, 0, out.Length);
      if r.Ok? { consumed := consumed + out[..r.value]; }
      assert Window() == [];
    }

    method CopyOut(out: array<Byte>) returns (n: nat)
      requires Valid() && out != storage
      modifies `begin, `consumed, out
      ensures Valid() && n <= out.Length && consumed == old(consumed) + out[..n]
      ensures n == if out.Length < |old(Window())| then out.Length else |old(Window())|
      ensures forall i :: n <= i < out.Length ==> out[i] == old(out[i])
    {
      n := if out.Length < Buffered() then out.Length else Buffered();
      forall i | 0 <= i < n { out[i] := storage[begin + i]; }
      assert out[..n] == Window()[..n];
      Consume(n);
    }

    /** Reads into `out`, past the buffer when it is empty and the request no smaller. */
    method Read(out: array<Byte>) returns (r: Result<nat, Errno>)
      requires Valid() && out != storage
      modifies `begin, `end, `consumed, storage, source, out
      ensures Valid()
      ensures r.Ok? ==> r.value <= out.Length && consumed == old(consumed) + out[..r.value]
      ensures r.Ok? ==> forall i :: r.value <= i < out.Length ==> out[i] == old(out[i])
      ensures r.Ok? && r.value == 0 && out.Length > 0 ==> source.ended && Window() == []
      ensures r.Err? ==> consumed == old(consumed) && Window() == old(Window()) && out[..] == old(out[..])
    {
      if out.Length == 0 { return Ok(0); }
      if Buffered() == 0 {
        if out.Length >= capacity {
          r := ReadPast(out);
          return;
        }
        var filled := Fill();
        if filled.Err? { return Err(filled.error); }
        if Buffered() == 0 { return Ok(0); }
      }
      var n := CopyOut(out);
      r := Ok(n);
    }

    /** Peek: a view of the next bytes that uses none of them up. */
    method Peek(count: nat) returns (r: Result<seq<Byte>, Errno>)
      requires Valid()
      modifies `begin, `end, storage, source
      ensures Valid() && old(Window()) <= Window()
      ensures count > capacity <==> r == Err(EMSGSIZE)
      ensures r.Ok? ==>
                && |r.value| <= count && r.value <= Window()
                && (|r.value| < count ==> r.value == Window() && source.ended)
    {
      if count > capacity { return Err(EMSGSIZE); }
      while Buffered() < count
        invariant Valid() && old(Window()) <= Window()
        decreases Left(source.script)
      {
        var before := Buffered();
        var filled := Fill();
        if filled.Err? { return Err(filled.error); }
        if Buffered() == before { break; }
      }
      var n := if count < Buffered() then count else Buffered();
      r := Ok(storage[begin..begin + n]);
    }

    /** Skips bytes; fewer than asked for means the end of the stream. */
    method Discard(count: nat) returns (r: Result<nat, Errno>)
      requires Valid()
      modifies `begin, `end, `consumed, storage, source
      ensures Valid() && old(consumed) <= consumed
      ensures r.Ok? ==> |consumed| == |old(consumed)| + r.value && r.value <= count
      ensures r.Ok? && r.value < count ==> source.ended && Window() == []
      ensures r.Err? ==> |consumed| < |old(consumed)| + count && Window() == []
    {
      var dropped := 0;
      while dropped < count
        invariant Valid() && old(consumed) <= consumed && |consumed| == |old(consumed)| + dropped && dropped <= count
        decreases count - dropped
      {
        if Buffered() == 0 {
          var filled := Fill();
          if filled.Err? { return Err(filled.error); }
          if Buffered() == 0 { break; }
        }
        var take := if count - dropped < Buffered() then count - dropped else Buffered();
        Consume(take);
        dropped := dropped + take;
      }
      r := Ok(dropped);
    }

    /** The position just behind the first delimiter of the window, or None. */
    method FindDelimiter(delimiter: Byte) returns (n: Option<nat>)
      requires Shape()
      ensures n.None? ==> delimiter !in Window()
      ensures n.Some? ==>
                && 0 < n.value <= Buffered() && Window()[n.value - 1] == delimiter
                && delimiter !in Window()[..n.value - 1]
    {
      var i := begin;
      while i < end
        invariant begin <= i <= end && delimiter !in storage[begin..i]
      {
        if storage[i] == delimiter {
          assert Window()[..i - begin] == storage[begin..i];
          return Some(i + 1 - begin);
        }
        assert storage[begin..i + 1] == storage[begin..i] + [storage[i]];
        i := i + 1;
      }
      n := None;
    }

    /** The first n bytes of the window move to the end of `out`. */
    method Take(out: seq<Byte>, n: nat) returns (longer: seq<Byte>)
      requires Valid() && n <= Buffered()
      modifies `begin, `consumed
      ensures Valid() && longer == out + old(Window())[..n]
      ensures consumed == old(consumed) + old(Window())[..n] && Window() == old(Window())[n..]
    {
      assert storage[begin..begin + n] == Window()[..n];
      longer := out + storage[begin..begin + n];
      Consume(n);
    }

    /** One pass over the window: it goes to the end of `out` up to its first delimiter, or all of it. */
    method TakeChunk(delimiter: Byte, out: seq<Byte>) returns (found: bool, longer: seq<Byte>)
      requires Valid() && delimiter !in out
      modifies `begin, `consumed
      ensures Valid() && out <= longer && consumed == old(consumed) + longer[|out|..]
      ensures |longer| == |out| + old(Buffered()) - Buffered()
      ensures found ==> |longer| > |out| && longer[|longer| - 1] == delimiter && delimiter !in longer[..|longer| - 1]
      ensures !found ==> delimiter !in longer && Window() == []
    {
      var n := FindDelimiter(delimiter);
      if n.Some? {
        CutsAtDelimiter(out, Window()[..n.value], delimiter);
        longer := Take(out, n.value);
        return true, longer;
      }
      assert Window()[..Buffered()] == Window();
      longer := Take(out, Buffered());
      found := false;
    }

    /**
     read_string(): the bytes up to and including the next delimiter, or what is
     left of the stream. On an error the bytes gathered so far are gone: they left
     the window and are not handed out.
     */
    method ReadString(delimiter: Byte, limit: nat) returns (r: Result<Option<seq<Byte>>, Errno>)
      requires Valid()
      modifies `begin, `end, `consumed, storage, source
      ensures Valid() && old(consumed) <= consumed
      ensures r.Ok? && r.value.None? ==> consumed == old(consumed) && Window() == [] && source.ended
      ensures r.Ok? && r.value.Some? ==>
                var chunk := r.value.value;
                && consumed == old(consumed) + chunk && 0 < |chunk| <= limit + capacity
                && delimiter !in chunk[..|chunk| - 1]
                && (chunk[|chunk| - 1] != delimiter ==> Window() == [] && source.ended)
      ensures r.Err? ==>
                var lost := consumed[|old(consumed)|..];
                && Window() == [] && delimiter !in lost && |lost| <= limit + capacity
                && (r.error == EMSGSIZE <==> |lost| > limit)
    {
      var out := [];
      while true
        invariant Valid() && consumed == old(consumed) + out && |out| <= limit && delimiter !in out
        decreases Left(source.script), Buffered()
      {
        var found, longer := TakeChunk(delimiter, out);
        assert consumed == old(consumed) + longer;
        if found { return Ok(Some(longer)); }
        out := longer;
        if |out| > limit { return Err(EMSGSIZE); }
        var filled := Fill();
        if filled.Err? { return Err(filled.error); }
        if Buffered() == 0 {
          if out == [] { return Ok(None); }
          return Ok(Some(out));
        }
      }
    }

    /**
     read_line(): a line without its end, which is "\n", "\r\n" or, at the end of the stream, nothing or "\r".
     A line keeps a last '\r' only in front of another one, which was cut off.
     */
    method ReadLine(limit: nat) returns (r: Result<Option<seq<Byte>>, Errno>)
      requires Valid()
      modifies `begin, `end, `consumed, storage, source
      ensures Valid() && old(consumed) <= consumed
      ensures r.Ok? && r.value.None? ==> consumed == old(consumed) && Window() == [] && source.ended
      ensures r.Ok? && r.value.Some? ==>
                var line := r.value.value;
                && NEWLINE !in line && |line| <= limit + capacity
                && (consumed == old(consumed) + line + [RETURN, NEWLINE] || consumed == old(consumed) + line + [NEWLINE]
                    || (source.ended && Window() == []
                        && (consumed == old(consumed) + line || consumed == old(consumed) + line + [RETURN])))
                && (line != [] && line[|line| - 1] == RETURN ==>
                      || consumed == old(consumed) + line + [RETURN, NEWLINE]
                      || consumed == old(consumed) + line + [RETURN])
      ensures r.Err? ==>
                var lost := consumed[|old(consumed)|..];
                && Window() == [] && NEWLINE !in lost && |lost| <= limit + capacity
                && (r.error == EMSGSIZE <==> |lost| > limit)
    {
      var chunk := ReadString(NEWLINE, limit);
      if chunk.Err? || chunk.value.None? { return chunk; }
      var line := chunk.value.value;
      ghost var whole := line;
      if line[|line| - 1] == NEWLINE { line := line[..|line| - 1]; }
      ghost var body := line;
      if line != [] && line[|line| - 1] == RETURN { line := line[..|line| - 1]; }
      assert whole == body || whole == body + [NEWLINE];
      assert body == line || body == line + [RETURN];
      assert body == line + [RETURN] && whole == body + [NEWLINE] ==> whole == line + [RETURN, NEWLINE];
      r := Ok(Some(line));
    }
  }
}
