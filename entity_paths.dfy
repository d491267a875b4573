/** The default storage directory of an entity type:
    {cache root}/beatthat/entities/{type full name}/{extra parts...},
    lower-cased. The platform's path join is a join with a single
    separator and its lower-casing is the ASCII one. */
module EntityPaths {
  import opened EntityTypes

  const Separator: char := '/'
  const ProductSegment: string := "beatthat"
  const EntitiesSegment: string := "entities"

  predicate IsUpper(c: char) {
    'A' <= c <= 'Z'
  }

  /** Lower-cases one character: upper-case letters map to their lower-case
      counterparts, every other character is left alone. */
  function LowerChar(c: char): (r: char)
    ensures !IsUpper(r)
    ensures !IsUpper(c) ==> r == c
    ensures IsUpper(c) ==> 'a' <= r <= 'z' && r as int - 'a' as int == c as int - 'A' as int
  {
    if IsUpper(c) then (c as int - 'A' as int + 'a' as int) as char else c
  }

  /** Lower-cases a string character by character. */
  function Lower(s: string): (r: string)
    ensures |r| == |s|
    ensures forall i :: 0 <= i < |s| ==> r[i] == LowerChar(s[i])
  {
    if s == [] then [] else [LowerChar(s[0])] + Lower(s[1..])
  }

  function LowerAll(segments: seq<string>): (r: seq<string>)
    ensures |r| == |segments|
    ensures forall i :: 0 <= i < |segments| ==> r[i] == Lower(segments[i])
  {
    seq(|segments|, i requires 0 <= i < |segments| => Lower(segments[i]))
  }

  /** Joins path segments with the separator (Split is its inverse). */
  function Combine(segments: seq<string>): string {
    if |segments| == 0 then ""
    else if |segments| == 1 then segments[0]
    else segments[0] + [Separator] + Combine(segments[1..])
  }

  /** Cuts a path at every separator; the inverse of Combine. */
  function Split(path: string): (r: seq<string>)
    ensures |r| >= 1
    ensures forall k :: 0 <= k < |r| ==> Separator !in r[k]
  {
    if path == [] then [""]
    else if path[0] == Separator then [""] + Split(path[1..])
    else
      var rest := Split(path[1..]);
      [[path[0]] + rest[0]] + rest[1..]
  }

  /** The extra segments a caller passes; a null array contributes none. */
  function ExtraParts(additional: Option<seq<string>>): (r: seq<string>)
    ensures |r| == if additional.Some? then |additional.value| else 0
    ensures additional.Some? ==> r == additional.value
  {
    if additional.Some? then additional.value else []
  }

  /** The segments of the default directory, in order. */
  function DefaultSegments(cacheRoot: string, typeFullName: string,
                           additional: Option<seq<string>>): (r: seq<string>)
    ensures |r| == 4 + |ExtraParts(additional)|
    ensures r[0] == cacheRoot && r[1] == ProductSegment
    ensures r[2] == EntitiesSegment && r[3] == typeFullName
    ensures forall k :: 0 <= k < |ExtraParts(additional)| ==> r[4 + k] == ExtraParts(additional)[k]
  {
    [cacheRoot, ProductSegment, EntitiesSegment, typeFullName] + ExtraParts(additional)
  }

  /** Copies `source` into `destination` starting at slot `at`; the slots
      before and after the copied range keep their values. */
  method CopyInto(source: seq<string>, destination: array<string>, at: nat)
    requires at + |source| <= destination.Length
    modifies destination
    ensures destination[..] == old(destination[..at]) + source + old(destination[at + |source|..])
  {
    var i := 0;
    while i < |source|
      invariant 0 <= i <= |source|
      invariant destination[..at] == old(destination[..at])
      invariant destination[at..at + i] == source[..i]
      invariant destination[at + i..] == old(destination[at + i..])
    {
      destination[at + i] := source[i];
      i := i + 1;
    }
    assert destination[..] == destination[..at] + destination[at..at + |source|] + destination[at + |source|..];
  }

  /** Fills a fresh array of 4 + n slots (cache root, product segment,
      "entities", type full name, then the extra parts), joins the slots and
      lower-cases the joined path. */
  method EntityDirectoryDefault(cacheRoot: string, typeFullName: string,
                                additional: Option<seq<string>>) returns (directory: string)
    ensures directory == Lower(Combine(DefaultSegments(cacheRoot, typeFullName, additional)))
  {
    var nAdditional := if additional.Some? then |additional.value| else 0;
    var pathParts := new string[4 + nAdditional];
    pathParts[0] := cacheRoot;
    pathParts[1] := ProductSegment;
    pathParts[2] := EntitiesSegment;
    pathParts[3] := typeFullName;
    if nAdditional > 0 {
      CopyInto(additional.value, pathParts, 4);
    }
    assert pathParts[..] == DefaultSegments(cacheRoot, typeFullName, additional);
    directory := Lower(Combine(pathParts[..]));
  }

  // ---------------------------------------------------------------------
  // Lower-casing

  lemma LowerConcat(a: string, b: string)
    ensures Lower(a + b) == Lower(a) + Lower(b)
  {
  }

  /** Lower-casing a joined path is joining the lower-cased segments. */
  lemma {:induction false} LowerCombine(segments: seq<string>)
    ensures Lower(Combine(segments)) == Combine(LowerAll(segments))
  {
    if |segments| >= 2 {
      var head, tail := segments[0], segments[1..];
      LowerCombine(tail);
      LowerConcat(head + [Separator], Combine(tail));
      LowerConcat(head, [Separator]);
      assert Lower([Separator]) == [Separator];
      assert LowerAll(segments)[1..] == LowerAll(tail);
    }
  }

  // ---------------------------------------------------------------------
  // Split and Combine are inverse

  lemma {:induction false} SplitNoSeparator(s: string)
    requires Separator !in s
    ensures Split(s) == [s]
  {
    if s != [] {
      assert Separator !in s[1..];
      SplitNoSeparator(s[1..]);
      assert s == [s[0]] + s[1..];
    }
  }

  /** A separator between two paths separates their segments. */
  lemma {:induction false} SplitJoin(a: string, b: string)
    ensures Split(a + [Separator] + b) == Split(a) + Split(b)
  {
    if a == [] {
      assert a + [Separator] + b == [Separator] + b;
      assert ([Separator] + b)[1..] == b;
    } else {
      assert (a + [Separator] + b)[1..] == a[1..] + [Separator] + b;
      SplitJoin(a[1..], b);
    }
  }

  /** Segments free of separators come back unchanged from their join. */
  lemma {:induction false} SplitCombine(segments: seq<string>)
    requires |segments| >= 1
    requires forall k :: 0 <= k < |segments| ==> Separator !in segments[k]
    ensures Split(Combine(segments)) == segments
  {
    if |segments| == 1 {
      SplitNoSeparator(segments[0]);
    } else {
      SplitNoSeparator(segments[0]);
      SplitJoin(segments[0], Combine(segments[1..]));
      SplitCombine(segments[1..]);
    }
  }

  /** Every path is the join of its segments. */
  lemma {:induction false} CombineSplit(path: string)
    ensures Combine(Split(path)) == path
  {
    if path != [] {
      CombineSplit(path[1..]);
      var rest := Split(path[1..]);
      if path[0] != Separator && |rest| >= 2 {
        assert Combine(rest) == rest[0] + [Separator] + Combine(rest[1..]);
        assert ([[path[0]] + rest[0]] + rest[1..])[1..] == rest[1..];
      } else if path[0] == Separator {
        assert ([""] + rest)[1..] == rest;
      }
    }
  }

  // ---------------------------------------------------------------------
  // The default directory

  lemma {:induction false} CombineFour(a: string, b: string, c: string, d: string, extra: seq<string>)
    ensures Combine([a, b, c, d] + extra)
         == a + [Separator] + b + [Separator] + c + [Separator] + d
            + (if extra == [] then "" else [Separator] + Combine(extra))
  {
    var s0, s1, s2, s3 := [a, b, c, d] + extra, [b, c, d] + extra, [c, d] + extra, [d] + extra;
    assert s0[1..] == s1 && s1[1..] == s2 && s2[1..] == s3;
    assert Combine(s0) == a + [Separator] + Combine(s1);
    assert Combine(s1) == b + [Separator] + Combine(s2);
    assert Combine(s2) == c + [Separator] + Combine(s3);
    if extra != [] {
      assert s3[1..] == extra;
      assert Combine(s3) == d + [Separator] + Combine(extra);
    }
  }

  /** The lower-cased segments of the default directory. */
  lemma LoweredDefaultSegments(cacheRoot: string, typeFullName: string,
                               additional: Option<seq<string>>)
    ensures LowerAll(DefaultSegments(cacheRoot, typeFullName, additional))
         == [Lower(cacheRoot), ProductSegment, EntitiesSegment, Lower(typeFullName)]
            + LowerAll(ExtraParts(additional))
  {
    var segments := DefaultSegments(cacheRoot, typeFullName, additional);
    var extra := ExtraParts(additional);
    var lowered := LowerAll(segments);
    var expected := [Lower(cacheRoot), ProductSegment, EntitiesSegment, Lower(typeFullName)] + LowerAll(extra);
    FixedSegmentsAreLower();
    assert |lowered| == |expected|;
    forall k | 0 <= k < |lowered|
      ensures lowered[k] == expected[k]
    {
      if k >= 4 {
        assert segments[k] == extra[k - 4];
      }
    }
  }

  lemma FixedSegmentsAreLower()
    ensures Lower(ProductSegment) == ProductSegment
    ensures Lower(EntitiesSegment) == EntitiesSegment
  {
  }

  /** The default directory always starts with the lower-cased cache root,
      the product segment, "entities" and the lower-cased type name, in that
      order; with no extra parts it is exactly that. */
  lemma DefaultDirectoryPrefix(cacheRoot: string, typeFullName: string,
                               additional: Option<seq<string>>)
    ensures
      var directory := Lower(Combine(DefaultSegments(cacheRoot, typeFullName, additional)));
      var prefix := Lower(cacheRoot) + [Separator] + ProductSegment + [Separator]
                    + EntitiesSegment + [Separator] + Lower(typeFullName);
      && |prefix| <= |directory|
      && directory[..|prefix|] == prefix
      && (ExtraParts(additional) == [] ==> directory == prefix)
  {
    var segments := DefaultSegments(cacheRoot, typeFullName, additional);
    var extra := LowerAll(ExtraParts(additional));
    LowerCombine(segments);
    LoweredDefaultSegments(cacheRoot, typeFullName, additional);
    CombineFour(Lower(cacheRoot), ProductSegment, EntitiesSegment, Lower(typeFullName), extra);
    var prefix := Lower(cacheRoot) + [Separator] + ProductSegment + [Separator]
                  + EntitiesSegment + [Separator] + Lower(typeFullName);
    var tail := if extra == [] then "" else [Separator] + Combine(extra);
    assert Lower(Combine(segments)) == prefix + tail;
  }

  /** When the type name and the extra parts contain no separator, the
      default directory splits into the cache root's own segments followed
      by the product segment, "entities", the type name and the extra parts,
      each lower-cased and in their original order. */
  lemma DefaultDirectorySegments(cacheRoot: string, typeFullName: string,
                                 additional: Option<seq<string>>)
    requires Separator !in typeFullName
    requires forall k :: 0 <= k < |ExtraParts(additional)| ==> Separator !in ExtraParts(additional)[k]
    ensures Split(Lower(Combine(DefaultSegments(cacheRoot, typeFullName, additional))))
         == Split(Lower(cacheRoot)) + [ProductSegment, EntitiesSegment, Lower(typeFullName)]
            + LowerAll(ExtraParts(additional))
  {
    var extra := ExtraParts(additional);
    var rest := [ProductSegment, EntitiesSegment, Lower(typeFullName)] + LowerAll(extra);
    DefaultDirectoryAsJoin(cacheRoot, typeFullName, additional);
    TailSegmentsSeparatorFree(typeFullName, extra);
    SplitCombine(rest);
    SplitJoin(Lower(cacheRoot), Combine(rest));
  }

  lemma DefaultDirectoryAsJoin(cacheRoot: string, typeFullName: string,
                               additional: Option<seq<string>>)
    ensures Lower(Combine(DefaultSegments(cacheRoot, typeFullName, additional)))
         == Lower(cacheRoot) + [Separator]
            + Combine([ProductSegment, EntitiesSegment, Lower(typeFullName)] + LowerAll(ExtraParts(additional)))
  {
    var segments := DefaultSegments(cacheRoot, typeFullName, additional);
    var rest := [ProductSegment, EntitiesSegment, Lower(typeFullName)] + LowerAll(ExtraParts(additional));
    LowerCombine(segments);
    LoweredDefaultSegments(cacheRoot, typeFullName, additional);
    assert LowerAll(segments) == [Lower(cacheRoot)] + rest;
    assert ([Lower(cacheRoot)] + rest)[1..] == rest;
  }

  /** Lower-casing never introduces a separator, so the segments after the
      cache root stay separator-free. */
  lemma TailSegmentsSeparatorFree(typeFullName: string, extra: seq<string>)
    requires Separator !in typeFullName
    requires forall k :: 0 <= k < |extra| ==> Separator !in extra[k]
    ensures var rest := [ProductSegment, EntitiesSegment, Lower(typeFullName)] + LowerAll(extra);
      forall k :: 0 <= k < |rest| ==> Separator !in rest[k]
  {
  }
}
