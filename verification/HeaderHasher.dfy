/** The buffer in which a renderer patches the JSON form of a count header. */
module HeaderHasher {
  import opened Considerations
  import opened HeaderReader
  import opened HeaderText

  // ----- editing the buffer

  /** The bytes `was` with the new prefix `x` over them. */
  predicate Over(now: string, x: string, was: string)
  {
    |x| <= |was| && now == x + was[|x|..]
  }

  lemma OverWrite(now: string, x: string, text: string, was: string)
    requires |x| + |text| <= |was| && Over(now, x, was)
    ensures |now| == |was| && Over(now[..|x|] + text + now[|x| + |text|..], x + text, was)
  {
  }

  /** Where the old bytes already say the right thing, at the right place, nothing need be written. */
  lemma OverKeep(now: string, x: string, text: string, was: string, before: string)
    requires |before + text| <= |was| && |before| == |x| && was[..|before + text|] == before + text
    requires Over(now, x, was)
    ensures Over(now, x + text, was)
  {
    assert was[|x|..|x| + |text|] == (before + text)[|x|..] == text;
    assert was[|x|..] == was[|x|..|x| + |text|] + was[|x| + |text|..];
  }

  lemma OverNothing(was: string)
    ensures Over(was, "", was)
  {
  }

  lemma OverPrefix(now: string, x: string, was: string)
    requires Over(now, x, was)
    ensures |x| <= |now| == |was| && now[..|x|] == x
  {
  }

  /** The fields of the serialization, in order, and its greatest length. */
  lemma Layout(h: CountHeader)
    requires InRange(h)
    ensures UpToRoot(h) == "" + HDR_PREVIOUS + Hex(h.previous, 64) + HDR_HASH_LIST_ROOT
    ensures UpToTime(h) == UpToRoot(h) + Hex(h.hashListRoot, 64) + HDR_TIME
    ensures UpToNonce(h) == UpToTime(h) + Dec(h.time) + Middle(h)
    ensures UpToCount(h) == UpToNonce(h) + Dec(h.nonce) + Lower(h)
    ensures Serialize(h) == UpToCount(h) + Dec(h.considerationCount) + HDR_END
    ensures |Serialize(h)| <= CAPACITY
  {
    Fits(h);
    hide Hex, Dec, Middle, Lower;
    assert "" + HDR_PREVIOUS == HDR_PREVIOUS;
  }

  class CountHeaderHasher {
    const sum: string -> nat
    const buffer: array<char>
    var previousHashListRoot: nat
    var previousTime: int
    var previousNonce: int
    var previousConsiderationCount: int
    var hashListRootOffset: nat
    var timeOffset: nat
    var nonceOffset: int
    var considerationCountOffset: int
    var timeLen: int
    var nonceLen: int
    var cnCountLen: int
    var initialized: bool
    var bufLen: int
    /** The header the buffer holds. */
    ghost var last: CountHeader

    constructor (sum: string -> nat)
      ensures Valid() && this.sum == sum && !initialized && fresh(buffer)
    {
      this.sum := sum;
      buffer := new char[CAPACITY];
      initialized, bufLen := false, 0;
      previousHashListRoot, previousTime, previousNonce, previousConsiderationCount := 0, 0, 0, 0;
      hashListRootOffset, timeOffset, nonceOffset, considerationCountOffset := 0, 0, 0, 0;
      timeLen, nonceLen, cnCountLen := 0, 0, 0;
    }

    /** Once initialized, the first bufLen bytes are the full JSON of `last`, and every offset points at its field. */
    ghost predicate Valid()
      reads this, buffer
    {
      && buffer.Length == CAPACITY
      && (initialized ==> Tracks(last))
    }

    ghost predicate Tracks(h: CountHeader)
      reads this, buffer
    {
      && InRange(h) && |Serialize(h)| <= buffer.Length
      && buffer[..|Serialize(h)|] == Serialize(h)
      && bufLen == |Serialize(h)|
      && hashListRootOffset == |UpToRoot(h)| && timeOffset == |UpToTime(h)|
      && nonceOffset == |UpToNonce(h)| && considerationCountOffset == |UpToCount(h)|
      && timeLen == |Dec(h.time)| && nonceLen == |Dec(h.nonce)| && cnCountLen == |Dec(h.considerationCount)|
      && previousHashListRoot == h.hashListRoot && previousTime == h.time && previousNonce == h.nonce
      && previousConsiderationCount == h.considerationCount
    }

    /** Write `text` at `pos` in place, and return where it ends. */
    method Write(pos: nat, text: string, ghost x: string, ghost was: string) returns (end: nat)
      requires |x| == pos && pos + |text| <= buffer.Length == |was| && Over(buffer[..], x, was)
      modifies buffer
      ensures end == pos + |text| && Over(buffer[..], x + text, was)
    {
      OverWrite(buffer[..], x, text, was);
      ghost var s := buffer[..];
      for i := 0 to |text|
        invariant buffer[..] == s[..pos] + text[..i] + s[pos + i..]
      {
        buffer[pos + i] := text[i];
      }
      assert text[..|text|] == text;
      end := pos + |text|;
    }

    method WriteMiddle(pos: nat, header: CountHeader, ghost x: string, ghost was: string) returns (end: nat)
      requires |x| == pos && pos + |Middle(header)| <= buffer.Length == |was| && Over(buffer[..], x, was)
      modifies buffer
      ensures end == pos + |Middle(header)| && Over(buffer[..], x + Middle(header), was)
    {
      hide Hex;
      end := Write(pos, HDR_TARGET, x, was);
      end := Write(end, Hex(header.target, 64), x + HDR_TARGET, was);
      ghost var y := HDR_TARGET + Hex(header.target, 64);
      assert x + HDR_TARGET + Hex(header.target, 64) == x + y;
      end := Write(end, HDR_POINT_WORK, x + y, was);
      end := Write(end, Hex(header.pointWork, 64), x + y + HDR_POINT_WORK, was);
      end := Write(end, HDR_NONCE, x + y + HDR_POINT_WORK + Hex(header.pointWork, 64), was);
      assert x + Middle(header) == x + y + HDR_POINT_WORK + Hex(header.pointWork, 64) + HDR_NONCE;
    }

    method WriteLower(pos: nat, header: CountHeader, ghost x: string, ghost was: string) returns (end: nat)
      requires InRange(header)
      requires |x| == pos && pos + |Lower(header)| <= buffer.Length == |was| && Over(buffer[..], x, was)
      modifies buffer
      ensures end == pos + |Lower(header)| && Over(buffer[..], x + Lower(header), was)
    {
      hide Dec;
      end := Write(pos, HDR_HEIGHT, x, was);
      end := Write(end, Dec(header.height), x + HDR_HEIGHT, was);
      end := Write(end, HDR_CONSIDERATION_COUNT, x + HDR_HEIGHT + Dec(header.height), was);
      assert x + Lower(header) == x + HDR_HEIGHT + Dec(header.height) + HDR_CONSIDERATION_COUNT;
    }

    lemma TracksIf(h: CountHeader, was: string)
      requires InRange(h) && |was| == buffer.Length == CAPACITY && Over(buffer[..], Serialize(h), was) && bufLen == |Serialize(h)|
      requires hashListRootOffset == |UpToRoot(h)| && timeOffset == |UpToTime(h)|
      requires nonceOffset == |UpToNonce(h)| && considerationCountOffset == |UpToCount(h)|
      requires timeLen == |Dec(h.time)| && nonceLen == |Dec(h.nonce)| && cnCountLen == |Dec(h.considerationCount)|
      requires previousHashListRoot == h.hashListRoot && previousTime == h.time && previousNonce == h.nonce
      requires previousConsiderationCount == h.considerationCount
      ensures Tracks(h)
    {
      hide Hex, Dec, Middle, Lower, UpToRoot, UpToTime, UpToNonce, UpToCount, Serialize, Over;
      OverPrefix(buffer[..], Serialize(h), was);
      assert buffer[..bufLen] == buffer[..][..bufLen];
    }

    /** Write the fields up to the nonce. */
    method InitFirst(header: CountHeader, ghost was: string) returns (end: nat)
      requires buffer.Length == |was| == CAPACITY && InRange(header) && buffer[..] == was
      modifies this`previousHashListRoot, this`hashListRootOffset, this`previousTime, this`timeOffset, this`timeLen, buffer
      ensures Over(buffer[..], UpToNonce(header), was) && end == |UpToNonce(header)|
      ensures previousHashListRoot == header.hashListRoot && hashListRootOffset == |UpToRoot(header)|
      ensures previousTime == header.time && timeOffset == |UpToTime(header)| && timeLen == |Dec(header.time)|
    {
      hide Hex, Dec, Middle, Lower, Over, UpToRoot, UpToTime, UpToNonce, UpToCount, Serialize;
      Layout(header);
      OverNothing(was);
      end := Write(0, HDR_PREVIOUS, "", was);
      end := Write(end, Hex(header.previous, 64), "" + HDR_PREVIOUS, was);
      previousHashListRoot := header.hashListRoot;
      end := Write(end, HDR_HASH_LIST_ROOT, "" + HDR_PREVIOUS + Hex(header.previous, 64), was);
      hashListRootOffset := end;
      end := Write(end, Hex(header.hashListRoot, 64), UpToRoot(header), was);
      previousTime := header.time;
      end := Write(end, HDR_TIME, UpToRoot(header) + Hex(header.hashListRoot, 64), was);
      timeOffset := end;
      end := Write(end, Dec(header.time), UpToTime(header), was);
      timeLen := end - timeOffset;
      end := WriteMiddle(end, header, UpToTime(header) + Dec(header.time), was);
    }

    /** Write the fields from the nonce on. */
    method InitRest(start: nat, header: CountHeader, ghost was: string)
      requires buffer.Length == |was| == CAPACITY && InRange(header)
      requires Over(buffer[..], UpToNonce(header), was) && start == |UpToNonce(header)|
      modifies this`previousNonce, this`nonceOffset, this`nonceLen, this`previousConsiderationCount,
        this`considerationCountOffset, this`cnCountLen, this`bufLen, buffer
      ensures Over(buffer[..], Serialize(header), was) && bufLen == |Serialize(header)|
      ensures previousNonce == header.nonce && nonceOffset == |UpToNonce(header)| && nonceLen == |Dec(header.nonce)|
      ensures considerationCountOffset == |UpToCount(header)| && cnCountLen == |Dec(header.considerationCount)|
      ensures previousConsiderationCount == header.considerationCount
    {
      hide Hex, Dec, Middle, Lower, Over, UpToRoot, UpToTime, UpToNonce, UpToCount, Serialize;
      Layout(header);
      previousNonce := header.nonce;
      nonceOffset := start;
      var end := Write(start, Dec(header.nonce), UpToNonce(header), was);
      nonceLen := end - nonceOffset;
      end := WriteLower(end, header, UpToNonce(header) + Dec(header.nonce), was);
      previousConsiderationCount := header.considerationCount;
      considerationCountOffset := end;
      end := Write(end, Dec(header.considerationCount), UpToCount(header), was);
      cnCountLen := end - considerationCountOffset;
      end := Write(end, HDR_END, UpToCount(header) + Dec(header.considerationCount), was);
      bufLen := end;
    }

    /** Fill the buffer from the start. */
    method InitBuffer(header: CountHeader)
      requires Valid() && InRange(header)
      modifies this, buffer
      ensures initialized && Tracks(header) && Valid() && last == header
    {
      hide Hex, Dec, Middle, Lower, Over, UpToRoot, UpToTime, UpToNonce, UpToCount, Serialize, Tracks;
      ghost var was := buffer[..];
      var end := InitFirst(header, was);
      InitRest(end, header, was);
      initialized := true;
      last := header;
      TracksIf(header, was);
    }

    /** Rewrite the hash list root, which never changes length. */
    method UpdateRoot(header: CountHeader, ghost was: string)
      requires Tracks(last) && buffer.Length == CAPACITY && InRange(header) && SameStatics(last, header)
      requires was == buffer[..]
      modifies this`previousHashListRoot, buffer
      ensures Over(buffer[..], UpToTime(header), was) && previousHashListRoot == header.hashListRoot
    {
      hide Hex, Dec, Middle, Lower, Over, UpToNonce, UpToCount, Serialize;
      Layout(header);
      Parts(last, was);
      OverNothing(was);
      OverKeep(buffer[..], "", UpToRoot(header), was, "");
      assert "" + UpToRoot(header) == UpToRoot(header);
      if previousHashListRoot != header.hashListRoot {
        previousHashListRoot := header.hashListRoot;
        var _ := Write(hashListRootOffset, Hex(header.hashListRoot, 64), UpToRoot(header), was);
      } else {
        OverKeep(buffer[..], UpToRoot(header), Hex(header.hashListRoot, 64), was, UpToRoot(last));
      }
      OverKeep(buffer[..], UpToRoot(header) + Hex(header.hashListRoot, 64), HDR_TIME, was, UpToRoot(last) + Hex(last.hashListRoot, 64));
    }

    /** Rewrite the time; if its length changes, shift the fields before the nonce. */
    method UpdateTime(header: CountHeader, ghost was: string) returns (offset: int)
      requires buffer.Length == |was| == CAPACITY && InRange(header) && SameStatics(last, header) && Holds(last, was)
      requires Over(buffer[..], UpToTime(header), was)
      requires timeOffset == |UpToTime(last)| && timeLen == |Dec(last.time)| && previousTime == last.time
      modifies this`previousTime, this`timeLen, buffer
      ensures Over(buffer[..], UpToNonce(header), was) && offset == |UpToNonce(header)| - |UpToNonce(last)|
      ensures timeLen == |Dec(header.time)| && previousTime == header.time
    {
      hide Hex, Dec, Middle, Lower, Over, UpToTime, UpToCount, Serialize, UpToNonce;
      Layout(header);
      Layout(last);
      Parts(last, was);
      SameLayout(last, header);
      offset := 0;
      if previousTime != header.time {
        previousTime := header.time;
        var end := Write(timeOffset, Dec(header.time), UpToTime(header), was);
        offset := end - timeOffset - timeLen;
        timeLen := end - timeOffset;
        if offset != 0 {
          end := WriteMiddle(end, header, UpToTime(header) + Dec(header.time), was);
          return;
        }
      } else {
        OverKeep(buffer[..], UpToTime(header), Dec(header.time), was, UpToTime(last));
      }
      OverKeep(buffer[..], UpToTime(header) + Dec(header.time), Middle(header), was, UpToTime(last) + Dec(last.time));
    }

    /** Rewrite the nonce; if the running shift is then not zero, shift the fields after it. */
    method UpdateNonce(header: CountHeader, shift: int, ghost was: string) returns (offset: int)
      requires buffer.Length == |was| == CAPACITY && InRange(header) && SameStatics(last, header) && Holds(last, was)
      requires Over(buffer[..], UpToNonce(header), was) && shift == |UpToNonce(header)| - |UpToNonce(last)|
      requires nonceOffset == |UpToNonce(last)| && nonceLen == |Dec(last.nonce)| && previousNonce == last.nonce
      modifies this`previousNonce, this`nonceOffset, this`nonceLen, buffer
      ensures Over(buffer[..], UpToCount(header), was) && offset == |UpToCount(header)| - |UpToCount(last)|
      ensures nonceOffset == |UpToNonce(header)| && nonceLen == |Dec(header.nonce)| && previousNonce == header.nonce
    {
      hide Hex, Dec, Middle, Lower, UpToNonce, Over, UpToTime, UpToCount, Serialize;
      Layout(header);
      Layout(last);
      Parts(last, was);
      SameLayout(last, header);
      offset := shift;
      if offset != 0 || previousNonce != header.nonce {
        previousNonce := header.nonce;
        nonceOffset := nonceOffset + offset;
        var end := Write(nonceOffset, Dec(header.nonce), UpToNonce(header), was);
        offset := offset + (end - nonceOffset - nonceLen);
        nonceLen := end - nonceOffset;
        if offset != 0 {
          end := WriteLower(end, header, UpToNonce(header) + Dec(header.nonce), was);
          return;
        }
      } else {
        OverKeep(buffer[..], UpToNonce(header), Dec(header.nonce), was, UpToNonce(last));
      }
      OverKeep(buffer[..], UpToNonce(header) + Dec(header.nonce), Lower(header), was, UpToNonce(last) + Dec(last.nonce));
    }

    /** Rewrite the consideration count; if the running shift is then not zero, shift the footer. */
    method UpdateCount(header: CountHeader, shift: int, ghost was: string) returns (offset: int)
      requires buffer.Length == |was| == CAPACITY && InRange(header) && SameStatics(last, header) && Holds(last, was)
      requires Over(buffer[..], UpToCount(header), was) && shift == |UpToCount(header)| - |UpToCount(last)|
      requires considerationCountOffset == |UpToCount(last)| && cnCountLen == |Dec(last.considerationCount)|
      requires previousConsiderationCount == last.considerationCount
      modifies this`previousConsiderationCount, this`considerationCountOffset, this`cnCountLen, buffer
      ensures Over(buffer[..], Serialize(header), was) && offset == |Serialize(header)| - |Serialize(last)|
      ensures considerationCountOffset == |UpToCount(header)| && cnCountLen == |Dec(header.considerationCount)|
      ensures previousConsiderationCount == header.considerationCount
    {
      hide Hex, Dec, Middle, Lower, UpToNonce, Over, UpToTime, UpToCount, Serialize;
      Layout(header);
      Layout(last);
      Parts(last, was);
      SameLayout(last, header);
      offset := shift;
      if offset != 0 || previousConsiderationCount != header.considerationCount {
        previousConsiderationCount := header.considerationCount;
        considerationCountOffset := considerationCountOffset + offset;
        var end := Write(considerationCountOffset, Dec(header.considerationCount), UpToCount(header), was);
        offset := offset + (end - considerationCountOffset - cnCountLen);
        cnCountLen := end - considerationCountOffset;
        if offset != 0 {
          end := Write(end, HDR_END, UpToCount(header) + Dec(header.considerationCount), was);
          return;
        }
      } else {
        OverKeep(buffer[..], UpToCount(header), Dec(header.considerationCount), was, UpToCount(last));
      }
      OverKeep(buffer[..], UpToCount(header) + Dec(header.considerationCount), HDR_END, was,
        UpToCount(last) + Dec(last.considerationCount));
    }

    /** Patch the fields that changed. */
    method Patch(header: CountHeader)
      requires Tracks(last) && buffer.Length == CAPACITY && InRange(header) && SameStatics(last, header)
      modifies this, buffer
      ensures Tracks(header) && last == header && initialized == old(initialized)
    {
      hide Hex, Dec, Middle, Lower, UpToRoot, UpToNonce, UpToCount, UpToTime, Serialize, Over;
      Layout(header);
      ghost var was := buffer[..];
      assert Holds(last, was);
      UpdateRoot(header, was);
      var offset := UpdateTime(header, was);
      offset := UpdateNonce(header, offset, was);
      offset := UpdateCount(header, offset, was);
      bufLen := bufLen + offset;
      SameLayout(last, header);
      last := header;
      TracksIf(header, was);
    }

    /** Bring the buffer up to date with the header and hash it: exactly the hash of the full JSON. */
    method Update(header: CountHeader) returns (id: nat)
      requires Valid() && InRange(header) && (initialized ==> SameStatics(last, header))
      modifies this, buffer
      ensures Valid() && initialized && last == header
      ensures bufLen == |Serialize(header)| <= buffer.Length && buffer[..bufLen] == Serialize(header)
      ensures id == sum(buffer[..bufLen]) && (IsHeader(header) ==> Reads(buffer[..bufLen], header))
    {
      hide Hex, Dec, Middle, Lower, UpToRoot, UpToNonce, UpToCount, UpToTime, Serialize, Reads, IsHeader;
      if !initialized {
        InitBuffer(header);
      } else {
        Patch(header);
      }
      id := sum(buffer[..bufLen]);
      if IsHeader(header) {
        SerializeReads(header);
      }
    }
  }

  /** The bytes begin with the JSON of `h`. */
  predicate Holds(h: CountHeader, s: string)
  {
    InRange(h) && |Serialize(h)| <= |s| && s[..|Serialize(h)|] == Serialize(h)
  }

  /** The offsets of the fields before the time never move. */
  lemma SameLayout(g: CountHeader, h: CountHeader)
    requires SameStatics(g, h) && InRange(g) && InRange(h)
    ensures UpToRoot(g) == UpToRoot(h) && |UpToTime(g)| == |UpToTime(h)| && Middle(g) == Middle(h) && Lower(g) == Lower(h)
  {
  }

  lemma PrefixOf(x: string, y: string, s: string)
    requires |x + y| <= |s| && s[..|x + y|] == x + y
    ensures s[..|x|] == x
  {
    assert s[..|x|] == s[..|x + y|][..|x|];
  }

  /** Each field of the serialization, at its place in the bytes. */
  lemma Parts(h: CountHeader, s: string)
    requires Holds(h, s)
    ensures s[..|UpToRoot(h)|] == UpToRoot(h)
    ensures var x := UpToRoot(h) + Hex(h.hashListRoot, 64); s[..|x|] == x
    ensures s[..|UpToTime(h)|] == UpToTime(h)
    ensures var x := UpToTime(h) + Dec(h.time); s[..|x|] == x
    ensures s[..|UpToNonce(h)|] == UpToNonce(h)
    ensures var x := UpToNonce(h) + Dec(h.nonce); s[..|x|] == x
    ensures s[..|UpToCount(h)|] == UpToCount(h)
    ensures var x := UpToCount(h) + Dec(h.considerationCount); s[..|x|] == x
    ensures |Serialize(h)| <= |s| && s[..|Serialize(h)|] == Serialize(h)
  {
    hide Hex, Dec, Middle, Lower;
    PrefixOf(UpToCount(h) + Dec(h.considerationCount), HDR_END, s);
    PrefixOf(UpToCount(h), Dec(h.considerationCount), s);
    PrefixOf(UpToNonce(h) + Dec(h.nonce), Lower(h), s);
    PrefixOf(UpToNonce(h), Dec(h.nonce), s);
    PrefixOf(UpToTime(h) + Dec(h.time), Middle(h), s);
    PrefixOf(UpToTime(h), Dec(h.time), s);
    PrefixOf(UpToRoot(h) + Hex(h.hashListRoot, 64), HDR_TIME, s);
    PrefixOf(UpToRoot(h), Hex(h.hashListRoot, 64), s);
  }
}
