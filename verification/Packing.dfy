/** The transcript packer: greedy, within a size limit, and optimal. */
module Packing {
  import opened Basics

  const MAX_CHARS_PER_FILE := 100_000
  const BLANK_LINE := "\n\n"

  /** The transcripts one behind the other, separated by blank lines. */
  function Join(texts: seq<string>): string {
    if texts == [] then ""
    else if |texts| == 1 then texts[0]
    else texts[0] + BLANK_LINE + Join(texts[1..])
  }

  function Contents(groups: seq<seq<string>>): (contents: seq<string>)
    ensures |contents| == |groups| && forall i :: 0 <= i < |groups| ==> contents[i] == Join(groups[i])
  {
    seq(|groups|, i requires 0 <= i < |groups| => Join(groups[i]))
  }

  /** A group of transcripts that may share a file: a single one of any size, or several within the limit. */
  predicate Admissible(group: seq<string>) {
    |group| == 1 || (|group| > 1 && |Join(group)| <= MAX_CHARS_PER_FILE)
  }

  /** An order-preserving grouping of the transcripts into admissible files. */
  ghost predicate Grouping(groups: seq<seq<string>>, transcripts: seq<string>) {
    Flatten(groups) == transcripts && forall i :: 0 <= i < |groups| ==> Admissible(groups[i])
  }

  ghost predicate NonEmpty(transcripts: seq<string>) {
    forall t | t in transcripts :: |t| > 0
  }

  /** One session as a transcript: never empty, because of its banner. */
  function Transcript(file: string, messages: seq<string>): (text: string)
    ensures |text| > 0
  {
    "=== SESSION: " + file + " ===\n" + JoinWith("\n---\n", messages) + "\n=== END SESSION ==="
  }

  function JoinWith(separator: string, texts: seq<string>): string {
    if texts == [] then "" else if |texts| == 1 then texts[0]
    else texts[0] + separator + JoinWith(separator, texts[1..])
  }

  // ---- Joining ----

  lemma {:induction false} JoinAppend(a: seq<string>, b: seq<string>)
    requires a != [] && b != []
    ensures Join(a + b) == Join(a) + BLANK_LINE + Join(b)
  {
    if |a| > 1 {
      JoinAppend(a[1..], b);
      assert (a + b)[1..] == a[1..] + b;
      assert Join(a + b) == a[0] + BLANK_LINE + (Join(a[1..]) + BLANK_LINE + Join(b));
    } else {
      assert (a + b)[1..] == b;
    }
  }

  /** A suffix of a group that has an element more than one is no longer than the group. */
  lemma {:induction false} PrefixIsShorter(a: seq<string>, b: seq<string>)
    ensures |Join(a)| <= |Join(a + b)| && |Join(b)| <= |Join(a + b)|
  {
    if a == [] {
      assert a + b == b;
    } else if b == [] {
      assert a + b == a;
    } else {
      JoinAppend(a, b);
    }
  }

  /** Joining the files of any grouping gives the transcripts joined the same way. */
  lemma {:induction false} JoinOfJoins(groups: seq<seq<string>>)
    requires forall i :: 0 <= i < |groups| ==> groups[i] != []
    ensures Join(Contents(groups)) == Join(Flatten(groups))
  {
    if |groups| == 1 {
      assert groups == [groups[0]] && Flatten(groups) == groups[0] + Flatten([]) == groups[0];
      assert Contents(groups) == [Join(groups[0])];
    } else if |groups| > 1 {
      JoinOfJoins(groups[1..]);
      assert Contents(groups)[1..] == Contents(groups[1..]);
      assert Flatten(groups[1..]) == groups[1] + Flatten(groups[1..][1..]);
      JoinAppend(groups[0], Flatten(groups[1..]));
    }
  }

  // ---- The greedy grouping ----

  /** The files still to be written when `open` is collected and `transcripts` remain. */
  function Greedy(open: seq<string>, transcripts: seq<string>): seq<seq<string>>
    decreases |transcripts|
  {
    if transcripts == [] then (if open == [] then [] else [open])
    else
      var t := transcripts[0];
      var flushed := if open != [] && |Join(open + [t])| > MAX_CHARS_PER_FILE then [open] else [];
      var kept := if flushed == [] then open else [];
      if |t| > MAX_CHARS_PER_FILE then flushed + [[t]] + Greedy([], transcripts[1..])
      else flushed + Greedy(kept + [t], transcripts[1..])
  }

  /** What may be open: nothing, or transcripts that together stay within the limit. */
  predicate Open(open: seq<string>) {
    |Join(open)| <= MAX_CHARS_PER_FILE
  }

  /** The greedy files group what was open followed by the remaining transcripts. */
  lemma {:induction false} GreedyGroups(open: seq<string>, transcripts: seq<string>)
    requires Open(open)
    ensures Grouping(Greedy(open, transcripts), open + transcripts)
    decreases |transcripts|
  {
    FlushedOpen(open, if transcripts == [] then "" else transcripts[0]);
    if transcripts == [] {
      assert open + transcripts == open && Flatten([open]) == open + Flatten([]);
    } else {
      var t, rest := transcripts[0], transcripts[1..];
      var flushed := if open != [] && |Join(open + [t])| > MAX_CHARS_PER_FILE then [open] else [];
      if |t| > MAX_CHARS_PER_FILE {
        GreedyGroups([], rest);
        FlattenSnoc(flushed, [t]);
        ConcatGroupings(flushed + [[t]], open + [t], Greedy([], rest), [] + rest);
        assert (open + [t]) + ([] + rest) == open + transcripts;
      } else {
        var kept := if flushed == [] then open else [];
        GreedyGroups(kept + [t], rest);
        ConcatGroupings(flushed, Flatten(flushed), Greedy(kept + [t], rest), (kept + [t]) + rest);
        assert Flatten(flushed) + ((kept + [t]) + rest) == open + transcripts;
      }
    }
  }

  lemma ConcatGroupings(a: seq<seq<string>>, x: seq<string>, b: seq<seq<string>>, y: seq<string>)
    requires Grouping(a, x) && Grouping(b, y)
    ensures Grouping(a + b, x + y)
  {
    FlattenAppend(a, b);
  }

  lemma FlushedOpen(open: seq<string>, t: string)
    requires Open(open)
    ensures var flushed := if open != [] && |Join(open + [t])| > MAX_CHARS_PER_FILE then [open] else [];
            && Flatten(flushed) == (if flushed == [] then [] else open)
            && (|t| > MAX_CHARS_PER_FILE ==> Flatten(flushed) == open)
            && (|t| <= MAX_CHARS_PER_FILE ==> Open((if flushed == [] then open else []) + [t]))
            && (open != [] ==> Admissible(open))
  {
    assert Flatten([open]) == open + Flatten([]);
    if open == [] {
      assert open + [t] == [t];
    } else {
      PrefixIsShorter(open, [t]);
    }
  }

  /** Leaving out leading transcripts never needs more files. */
  lemma {:induction false} DropLeading(groups: seq<seq<string>>, transcripts: seq<string>, k: nat)
    returns (fewer: seq<seq<string>>)
    requires Grouping(groups, transcripts) && k <= |transcripts|
    ensures Grouping(fewer, transcripts[k..]) && |fewer| <= |groups|
    decreases |groups|
  {
    if k == 0 {
      fewer := groups;
    } else {
      var first, rest := groups[0], Flatten(groups[1..]);
      assert transcripts == first + rest;
      if k < |first| {
        fewer := [first[k..]] + groups[1..];
        PrefixIsShorter(first[..k], first[k..]);
        assert first[..k] + first[k..] == first;
        assert transcripts[k..] == first[k..] + rest;
      } else {
        fewer := DropLeading(groups[1..], rest, k - |first|);
        assert transcripts[k..] == rest[k - |first|..];
      }
    }
  }

  /** Greedy stays ahead: no grouping of the same transcripts has fewer files. */
  lemma {:induction false} GreedyIsMinimal(open: seq<string>, transcripts: seq<string>, groups: seq<seq<string>>)
    requires Open(open) && Grouping(groups, open + transcripts)
    ensures |Greedy(open, transcripts)| <= |groups|
    decreases |transcripts|
  {
    if transcripts == [] {
      assert open + transcripts == open;
    } else {
      var t, rest := transcripts[0], transcripts[1..];
      assert [t] + rest == transcripts;
      if open != [] && |Join(open + [t])| > MAX_CHARS_PER_FILE {
        var fewer := AfterFlush(open, transcripts, groups);
        TakeFirst(transcripts, fewer);
      } else if |t| > MAX_CHARS_PER_FILE {
        PrefixIsShorter(open, [t]);
        assert open + transcripts == transcripts;
        TakeFirst(transcripts, groups);
      } else {
        assert (open + [t]) + rest == open + transcripts;
        assert open == [] ==> open + [t] == [t];
        GreedyIsMinimal(open + [t], rest, groups);
      }
    }
  }

  /** One greedy step on an empty file, against any grouping. */
  lemma {:induction false} TakeFirst(transcripts: seq<string>, groups: seq<seq<string>>)
    requires transcripts != [] && Grouping(groups, transcripts)
    ensures |Greedy([], transcripts)| <= |groups|
    decreases |transcripts|, 0
  {
    var t, rest := transcripts[0], transcripts[1..];
    assert [t] + rest == transcripts && [] + [t] == [t];
    if |t| > MAX_CHARS_PER_FILE {
      var first := groups[0];
      assert transcripts == first + Flatten(groups[1..]);
      assert first == [t] by {
        assert Admissible(first) && first[0] == transcripts[0];
        PrefixIsShorter([t], first[1..]);
        assert [t] + first[1..] == first;
      }
      GreedyIsMinimal([], rest, groups[1..]);
    } else {
      GreedyIsMinimal([t], rest, groups);
    }
  }

  /** When the next transcript does not fit, the first group of any grouping ends within the open file. */
  lemma AfterFlush(open: seq<string>, transcripts: seq<string>, groups: seq<seq<string>>)
    returns (fewer: seq<seq<string>>)
    requires open != [] && transcripts != [] && |Join(open + [transcripts[0]])| > MAX_CHARS_PER_FILE
    requires Grouping(groups, open + transcripts)
    ensures Grouping(fewer, transcripts) && |fewer| < |groups|
  {
    var first, rest := groups[0], Flatten(groups[1..]);
    assert open + transcripts == first + rest;
    if |first| > |open| {
      var more := |open| + 1;
      assert first[..more] == (open + transcripts)[..more] == open + [transcripts[0]];
      assert first[..more] + first[more..] == first;
      PrefixIsShorter(first[..more], first[more..]);
    }
    assert |first| <= |open|;
    var k := |open| - |first|;
    Behind(first, rest, open, transcripts);
    fewer := DropLeading(groups[1..], rest, k);
  }

  lemma Behind<T>(first: seq<T>, rest: seq<T>, open: seq<T>, others: seq<T>)
    requires first + rest == open + others && |first| <= |open|
    ensures |open| - |first| <= |rest| && rest[|open| - |first|..] == others
  {
    assert (first + rest)[|open|..] == rest[|open| - |first|..];
    assert (open + others)[|open|..] == others;
  }

  // ---- The loop ----

  datatype OutputFile = OutputFile(index: nat, content: string, oversized: bool)

  /** Collects the non-empty sessions as transcripts and packs them into files. */
  method Collect(sessions: seq<(string, seq<string>)>) returns (transcripts: seq<string>)
    ensures NonEmpty(transcripts)
    ensures transcripts == Flatten(seq(|sessions|, i requires 0 <= i < |sessions| =>
                             if sessions[i].1 == [] then [] else [Transcript(sessions[i].0, sessions[i].1)]))
  {
    transcripts := [];
    ghost var parts := seq(|sessions|, i requires 0 <= i < |sessions| =>
                             if sessions[i].1 == [] then [] else [Transcript(sessions[i].0, sessions[i].1)]);
    for i := 0 to |sessions|
      invariant NonEmpty(transcripts) && transcripts == Flatten(parts[..i])
    {
      FlattenSnoc(parts[..i], parts[i]);
      assert parts[..i] + [parts[i]] == parts[..i + 1];
      if |sessions[i].1| > 0 {
        transcripts := transcripts + [Transcript(sessions[i].0, sessions[i].1)];
      }
    }
    assert parts[..|sessions|] == parts;
  }

  /** The files written so far hold the groups, one each, numbered in order. */
  ghost predicate Written(files: seq<OutputFile>, groups: seq<seq<string>>) {
    |files| == |groups| && forall i :: 0 <= i < |files| ==>
      && files[i].index == i && files[i].content == Join(groups[i])
      && (files[i].oversized <==> |files[i].content| > MAX_CHARS_PER_FILE)
  }

  lemma WrittenNext(files: seq<OutputFile>, groups: seq<seq<string>>, group: seq<string>)
    requires Written(files, groups)
    ensures Written(files + [OutputFile(|files|, Join(group), |Join(group)| > MAX_CHARS_PER_FILE)], groups + [group])
  {
  }

  /** The packing loop: writes the greedy groups, one file each. */
  method Pack(transcripts: seq<string>) returns (outputFiles: seq<OutputFile>)
    requires NonEmpty(transcripts)
    ensures Written(outputFiles, Greedy([], transcripts))
  {
    outputFiles := [];
    var currentContent, fileIndex := "", 0;
    ghost var open: seq<string>, groups: seq<seq<string>> := [], [];
    assert transcripts[0..] == transcripts && [] + Greedy([], transcripts) == Greedy([], transcripts);
    for i := 0 to |transcripts|
      invariant fileIndex == |outputFiles|
      invariant currentContent == Join(open) && Open(open) && (open == [] <==> currentContent == "")
      invariant Written(outputFiles, groups)
      invariant groups + Greedy(open, transcripts[i..]) == Greedy([], transcripts)
    {
      var transcript := transcripts[i];
      GreedyStep(groups, open, transcripts, i);
      FlushedOpen(open, transcript);
      OpenLength(open, transcript);
      WrittenNext(outputFiles, groups, open);
      if |currentContent| > 0 && |currentContent| + |transcript| + 2 > MAX_CHARS_PER_FILE {
        outputFiles, groups := outputFiles + [OutputFile(fileIndex, currentContent, false)], groups + [open];
        currentContent, open := "", [];
        fileIndex := fileIndex + 1;
      }
      if |transcript| > MAX_CHARS_PER_FILE {
        // The script's second flush, of content that the first has always flushed already.
        if |currentContent| > 0 { assert false; }
        WrittenNext(outputFiles, groups, [transcript]);
        outputFiles, groups := outputFiles + [OutputFile(fileIndex, transcript, true)], groups + [[transcript]];
        fileIndex := fileIndex + 1;
        continue;
      }
      currentContent := currentContent + (if currentContent != "" then BLANK_LINE else "") + transcript;
      open := open + [transcript];
    }
    if |currentContent| > 0 {
      outputFiles, groups := outputFiles + [OutputFile(fileIndex, currentContent, false)], groups + [open];
    }
  }

  lemma OpenLength(open: seq<string>, t: string)
    ensures open != [] ==>
      Join(open + [t]) == Join(open) + BLANK_LINE + t && |Join(open + [t])| == |Join(open)| + |t| + 2
    ensures open == [] ==> open + [t] == [t] && Join(open + [t]) == t
  {
    if open != [] { JoinAppend(open, [t]); }
  }

  /** One unfolding of the greedy files behind those already closed. */
  lemma GreedyStep(groups: seq<seq<string>>, open: seq<string>, transcripts: seq<string>, i: nat)
    requires i < |transcripts|
    ensures var t := transcripts[i]; var rest := transcripts[i + 1..];
            var flushed := if open != [] && |Join(open + [t])| > MAX_CHARS_PER_FILE then groups + [open] else groups;
            var kept := if open != [] && |Join(open + [t])| > MAX_CHARS_PER_FILE then [] else open;
            groups + Greedy(open, transcripts[i..]) ==
            if |t| > MAX_CHARS_PER_FILE then (flushed + [[t]]) + Greedy([], rest)
              else flushed + Greedy(kept + [t], rest)
  {
    assert transcripts[i..][0] == transcripts[i] && transcripts[i..][1..] == transcripts[i + 1..];
  }

  /**
   * What the packer promises of the files it writes: each is within the limit or is one oversized transcript, joined
   * by blank lines they give the transcripts joined the same way, and no order-preserving grouping needs fewer.
   */
  lemma PackingIsOptimal(transcripts: seq<string>, files: seq<OutputFile>)
    requires NonEmpty(transcripts) && Written(files, Greedy([], transcripts))
    ensures forall i :: 0 <= i < |files| ==>
              if files[i].oversized then files[i].content in transcripts else |files[i].content| <= MAX_CHARS_PER_FILE
    ensures Join(seq(|files|, i requires 0 <= i < |files| => files[i].content)) == Join(transcripts)
    ensures forall other :: Grouping(other, transcripts) ==> |files| <= |other|
  {
    var groups := Greedy([], transcripts);
    GreedyGroups([], transcripts);
    assert [] + transcripts == transcripts;
    forall i | 0 <= i < |files| && files[i].oversized ensures files[i].content in transcripts {
      InFlatten(groups, i);
    }
    JoinOfJoins(groups);
    assert Contents(groups) == seq(|files|, i requires 0 <= i < |files| => files[i].content);
    forall other | Grouping(other, transcripts) ensures |files| <= |other| {
      GreedyIsMinimal([], transcripts, other);
    }
  }

  lemma {:induction false} InFlatten(groups: seq<seq<string>>, i: nat)
    requires i < |groups| && groups[i] != []
    ensures groups[i][0] in Flatten(groups)
  {
    if i > 0 {
      InFlatten(groups[1..], i - 1);
      assert groups[1..][i - 1] == groups[i];
    }
  }
}
