/** The tagged output of `src/bpytest/common/bpyprint.py`: lines the test
    process prints for the host are prefixed with a marker, recognised by
    it, and have the marker removed again. */
module BpyPrint {
  import opened Strings

  const Marker: string := "[bpytest]"

  /** The line `bpyprint` prints for a value whose `str` is `text` (the
      newline `print` adds, and the optional flush, are not part of it). */
  function Emit(text: string): (line: string)
    ensures IsBpyPrint(line)
    ensures |line| == |Marker| + |text| && line[|Marker|..] == text
  {
    Marker + text
  }

  /** `is_bpyprint`. */
  predicate IsBpyPrint(line: string) {
    StartsWith(line, Marker)
  }

  /** `decode_bpyprint`: every non-overlapping occurrence of the marker,
      scanning left to right, is removed. */
  function Decode(line: string): (r: string)
    ensures |r| <= |line|
    ensures !Contains(line, Marker) ==> r == line
    ensures Contains(line, Marker) ==> |r| < |line|
  {
    var parts := Split(line, Marker);
    SplitCountsOccurrence(line, Marker);
    JoinLength(parts, "");
    JoinLength(parts, Marker);
    SplitJoin(line, Marker);
    assert !Contains(line, Marker) ==> parts == [line] by {
      if !Contains(line, Marker) {
        SplitWithoutSep(line, Marker);
      }
    }
    Replace(line, Marker, "")
  }

  /** A line emitted for marker-free text decodes back to that text. */
  lemma DecodeEmit(text: string)
    requires !Contains(text, Marker)
    ensures Decode(Emit(text)) == text
  {
    SplitAtFirst("", Marker, text);
    assert "" + Marker + text == Emit(text);
    SplitWithoutSep(text, Marker);
    assert Split(Emit(text), Marker) == ["", text];
    assert Join(["", text], "") == "" + "" + Join([text], "");
  }

  lemma ShortHasNoMarker(s: string)
    requires |s| < |Marker|
    ensures !Contains(s, Marker)
  {
    ContainsIffOccurs(s, Marker);
  }

  /** The marker split out of `"[bpy" + Marker + "test]"`. */
  lemma SplitNested()
    ensures Split("[bpy" + Marker + "test]", Marker) == ["[bpy", "test]"]
  {
    var front := "[bpy" + Marker;
    assert front == "[bpy[bpytest]";
    forall j | 0 <= j < 4 ensures !OccursAt(front, Marker, j) {
      if j == 0 {
        assert front[4] != Marker[4];
      } else {
        assert front[j] != Marker[0];
      }
    }
    SplitAtFirst("[bpy", Marker, "test]");
    ShortHasNoMarker("test]");
    SplitWithoutSep("test]", Marker);
  }

  /** Decoding is not idempotent: removing the inner marker can join the
      pieces of another one. */
  lemma DecodeCanRevealMarker()
    ensures Decode("[bpy" + Marker + "test]") == Marker
    ensures Decode(Decode("[bpy" + Marker + "test]")) == ""
  {
    SplitNested();
    assert Join(["[bpy", "test]"], "") == "[bpy" + "" + "test]";
    ShortHasNoMarker("");
    DecodeEmit("");
    assert Emit("") == Marker;
  }
}
