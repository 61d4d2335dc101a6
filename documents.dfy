/** Every batch job spm.py writes, as the sequence of pieces its renderer
    passes to `write`, in order, as a function of the renderer's arguments;
    the job's text is their concatenation. Lemmas say what that text holds
    line by line: image lists, covariate columns, subject entries, bounding
    boxes, slots. */
module Documents {
  import opened Decimal
  import opened Text

  // Field-path prefixes of the batch dialect, one per kind of job.
  const CoregEstwrite: string := "matlabbatch{1}.spm.spatial.coreg.estwrite."
  const OldNormEstwrite: string := "matlabbatch{1}.spm.tools.oldnorm.estwrite."
  const NormaliseEstwrite: string := "matlabbatch{1}.spm.spatial.normalise.estwrite."
  const DefsComp: string := "matlabbatch{1}.spm.util.defs.comp{1}."
  const DefsCompInv: string := "matlabbatch{1}.spm.util.defs.comp{1}.inv."
  const DefsOut: string := "matlabbatch{1}.spm.util.defs.out{1}."
  const Defs: string := "matlabbatch{1}.spm.util.defs."
  const SmoothJob: string := "matlabbatch{1}.spm.spatial.smooth."
  const FactorialDesign: string := "matlabbatch{1}.spm.stats.factorial_design."
  const Estimate1: string := "matlabbatch{1}.spm.stats.fmri_est."
  const Contrast1: string := "matlabbatch{1}.spm.stats.con."
  const CatEstwrite: string := "matlabbatch{1}.spm.tools.cat.estwrite."
  const CatOutput: string := "matlabbatch{1}.spm.tools.cat.estwrite.output."
  const CatFactorialDesign: string := "matlabbatch{1}.spm.tools.cat.factorial_design."
  const Estimate2: string := "matlabbatch{2}.spm.stats.fmri_est."
  const Contrast3: string := "matlabbatch{3}.spm.stats.con."

  /** Frame suffix of a single-volume image reference. */
  const Frame: string := ",1"

  /** The field-path prefixes that start the lines of a list or subject
      block hold no line break. */
  lemma PrefixesSingleLine()
    ensures Free(OldNormEstwrite, '\n') && Free(FactorialDesign, '\n')
    ensures Free(SmoothJob, '\n') && Free(CatEstwrite, '\n')
  {
    OldNormEstwriteSingleLine();
    FactorialDesignSingleLine();
    SmoothJobSingleLine();
    CatEstwriteSingleLine();
  }

  lemma OldNormEstwriteSingleLine() ensures Free(OldNormEstwrite, '\n') {}
  lemma FactorialDesignSingleLine() ensures Free(FactorialDesign, '\n') {}
  lemma SmoothJobSingleLine() ensures Free(SmoothJob, '\n') {}
  lemma CatEstwriteSingleLine() ensures Free(CatEstwrite, '\n') {}

  // ---------------------------------------------------------------- blocks

  /** One quoted entry per item, in order: `'<item><suffix>'`. */
  function ListLines(items: seq<string>, suffix: string): (ls: seq<string>)
    ensures |ls| == |items|
  {
    seq(|items|, i requires 0 <= i < |items| => "'" + items[i] + suffix + "'")
  }

  /** The writes of a renderer's `for image in ...:` loop over a list, one
      entry and its newline per item, then the write that closes the list. */
  function ListWrites(items: seq<string>, suffix: string, closing: string): seq<string> {
    LineWrites(ListLines(items, suffix)) + [closing]
  }

  /** The writes of a covariate column: the opening, one value and its
      newline per entry of the first group, then of the second, then the
      closing. */
  function ColumnWrites(opening: string, first: seq<string>, second: seq<string>, closing: string): seq<string> {
    [opening] + LineWrites(first) + LineWrites(second) + [closing]
  }

  /** A numeric column as it reads in the job: the opening bracket, one
      value per line (the first directly after the bracket), then the
      closing text. */
  function ColumnVector(opening: string, values: seq<string>, closing: string): string {
    opening + Unlines(values) + closing
  }

  lemma Associative(a: string, b: string, c: string)
    ensures a + b + c == a + (b + c)
  {
  }

  lemma FreeConcat(a: string, b: string, c: char)
    requires Free(a, c) && Free(b, c)
    ensures Free(a + b, c)
  {
    forall i | 0 <= i < |a + b| ensures (a + b)[i] != c {
      if i >= |a| { assert (a + b)[i] == b[i - |a|]; }
    }
  }

  lemma AllFreeConcat(a: seq<string>, b: seq<string>, c: char)
    requires AllFree(a, c) && AllFree(b, c)
    ensures AllFree(a + b, c)
  {
    forall k | 0 <= k < |a + b| ensures Free((a + b)[k], c) {
      if k >= |a| { assert (a + b)[k] == b[k - |a|]; }
    }
  }

  lemma ListLinesFree(items: seq<string>, suffix: string)
    requires AllFree(items, '\n') && Free(suffix, '\n')
    ensures AllFree(ListLines(items, suffix), '\n')
  {
    forall k | 0 <= k < |items| ensures Free(ListLines(items, suffix)[k], '\n') {
      assert Free(items[k], '\n');
      FreeConcat("'", items[k], '\n');
      FreeConcat("'" + items[k], suffix, '\n');
      FreeConcat("'" + items[k] + suffix, "'", '\n');
    }
  }

  /** A covariate column holds the first group's values, then the second
      group's, between its opening and its closing. */
  lemma ColumnText(opening: string, first: seq<string>, second: seq<string>, closing: string)
    ensures Concat(ColumnWrites(opening, first, second, closing)) == ColumnVector(opening, first + second, closing)
  {
    var a := LineWrites(first);
    var b := LineWrites(second);
    ConcatAppend([opening] + a + b, [closing]);
    ConcatAppend([opening] + a, b);
    ConcatAppend([opening], a);
    ConcatSingle(opening);
    ConcatSingle(closing);
    ConcatLineWrites(first);
    ConcatLineWrites(second);
    UnlinesAppend(first, second);
  }

  /** Line layout of a non-empty covariate column: the first value shares
      the line of the opening bracket, every further value has a line of
      its own, in order, and the closing text follows. */
  lemma ColumnVectorLines(opening: string, values: seq<string>, closing: string, rest: string)
    requires Free(opening, '\n') && AllFree(values, '\n') && values != []
    ensures SplitLines(ColumnVector(opening, values, closing) + rest)
         == [opening + values[0]] + values[1..] + SplitLines(closing + rest)
  {
    var tail := Unlines(values[1..]) + (closing + rest);
    AllFreeTail(values, '\n');
    assert Free(values[0], '\n');
    FreeConcat(opening, values[0], '\n');
    ColumnVectorFirstLine(opening, values, closing, rest);
    SplitLinesCons(opening + values[0], tail);
    SplitLinesUnlines(values[1..], closing + rest);
  }

  /** The first value shares the opening's line. */
  lemma ColumnVectorFirstLine(opening: string, values: seq<string>, closing: string, rest: string)
    requires values != []
    ensures ColumnVector(opening, values, closing) + rest
         == (opening + values[0]) + "\n" + (Unlines(values[1..]) + (closing + rest))
  {
  }

  lemma AllFreeTail(ls: seq<string>, c: char)
    requires AllFree(ls, c) && ls != []
    ensures AllFree(ls[1..], c)
  {
    forall k | 0 <= k < |ls| - 1 ensures Free(ls[1..][k], c) {
      assert ls[1..][k] == ls[k + 1];
    }
  }

  /** The writes of a list followed by a closing line are the writes of
      its entries and of that line, each as a whole line. */
  lemma ListWritesLines(items: seq<string>, suffix: string, closing: string)
    ensures ListWrites(items, suffix, closing + "\n") == LineWrites(ListLines(items, suffix) + [closing])
  {
  }

  /** A list opened by `<opener>` on a line of its own and closed by `};`
      reads back as the opener, one line per item in order, and `};`. */
  lemma OpenedListText(opener: string, items: seq<string>, suffix: string)
    requires Free(opener, '\n') && AllFree(items, '\n') && Free(suffix, '\n')
    ensures var ls := [opener] + ListLines(items, suffix) + ["};"];
      AllFree(ls, '\n') && Concat([opener + "\n"] + ListWrites(items, suffix, "};" + "\n")) == Unlines(ls)
  {
    var lines := ListLines(items, suffix);
    var ls := [opener] + lines + ["};"];
    ListLinesFree(items, suffix);
    AllFreeConcat([opener], lines, '\n');
    AllFreeConcat([opener] + lines, ["};"], '\n');
    assert [opener + "\n"] + ListWrites(items, suffix, "};" + "\n") == LineWrites(ls);
    ConcatLineWrites(ls);
  }

  /** Text that begins with the writes of whole lines reads back as those
      lines first, whatever is written after them. */
  lemma WrittenLinesFirst(front: seq<string>, rest: seq<string>, ls: seq<string>)
    requires AllFree(ls, '\n') && Concat(front) == Unlines(ls)
    ensures var all := SplitLines(Concat(front + rest));
      |all| > |ls| && all[..|ls|] == ls
  {
    ConcatPrefix(front, rest);
    PrefixLines(Concat(front + rest), ls);
  }

  /** Whole lines written in one piece, then a list closed by `};`: the
      lines, one line per item in order and `};` read back first,
      whatever is written after them. */
  lemma HeadedListFirst(heads: seq<string>, items: seq<string>, suffix: string, rest: seq<string>)
    requires AllFree(heads, '\n') && AllFree(items, '\n') && Free(suffix, '\n')
    ensures var expected := heads + ListLines(items, suffix) + ["};"];
      var ls := SplitLines(Concat([Unlines(heads)] + ListWrites(items, suffix, "};" + "\n") + rest));
      |ls| > |expected| && ls[..|expected|] == expected
  {
    var lines := ListLines(items, suffix) + ["};"];
    ListLinesFree(items, suffix);
    AllFreeConcat(ListLines(items, suffix), ["};"], '\n');
    AllFreeConcat(heads, lines, '\n');
    ListWritesLines(items, suffix, "};");
    var front := [Unlines(heads)] + LineWrites(lines);
    ConcatAppend([Unlines(heads)], LineWrites(lines));
    ConcatSingle(Unlines(heads));
    ConcatLineWrites(lines);
    UnlinesAppend(heads, lines);
    assert heads + ListLines(items, suffix) + ["};"] == heads + lines;
    WrittenLinesFirst(front, rest, heads + lines);
  }

  /** Whole lines and a list opener with no newline after it, written in
      one piece, then the list closed by `};`: after the lines, the first
      item shares the opener's line (an empty list closes on it), every
      further item has a line of its own, then `};`. */
  lemma SharedOpenerFirst(heads: seq<string>, opener: string, items: seq<string>, suffix: string, rest: seq<string>)
    requires AllFree(heads, '\n') && Free(opener, '\n') && AllFree(items, '\n') && Free(suffix, '\n')
    ensures var entries := ListLines(items, suffix);
      var expected := if items == [] then heads + [opener + "};"]
                      else heads + [opener + entries[0]] + entries[1..] + ["};"];
      var ls := SplitLines(Concat([Unlines(heads) + opener] + ListWrites(items, suffix, "};" + "\n") + rest));
      |ls| > |expected| && ls[..|expected|] == expected
  {
    var entries := ListLines(items, suffix);
    var r := Concat(rest);
    var column := ColumnVector(opener, entries, "};" + "\n");
    ListLinesFree(items, suffix);
    var lines := if entries == [] then [opener + "};"] else [opener + entries[0]] + entries[1..] + ["};"];
    SharedOpenerText(Unlines(heads), opener, items, suffix, rest);
    SplitLinesUnlines(heads, column + r);
    ClosedColumnLines(opener, entries, r);
    LinesBeforeRest(heads + lines, SplitLines(r));
  }

  lemma LinesBeforeRest(front: seq<string>, rest: seq<string>)
    requires |rest| > 0
    ensures |front + rest| > |front| && (front + rest)[..|front|] == front
  {
  }

  /** The pieces of `SharedOpenerFirst` as one text: the whole lines, then
      the list as a column that opens on the opener's line. */
  lemma SharedOpenerText(u: string, opener: string, items: seq<string>, suffix: string, rest: seq<string>)
    ensures Concat([u + opener] + ListWrites(items, suffix, "};" + "\n") + rest)
         == u + (ColumnVector(opener, ListLines(items, suffix), "};" + "\n") + Concat(rest))
  {
    var entries := ListLines(items, suffix);
    var closing := "};" + "\n";
    var list := ListWrites(items, suffix, closing);
    ConcatAppend([u + opener] + list, rest);
    ConcatAppend([u + opener], list);
    ConcatSingle(u + opener);
    ConcatAppend(LineWrites(entries), [closing]);
    ConcatLineWrites(entries);
    ConcatSingle(closing);
    Associative(u, opener, Unlines(entries) + closing);
    Associative(opener, Unlines(entries), closing);
    Associative(u, ColumnVector(opener, entries, closing), Concat(rest));
  }

  /** A column closed by `};` on a line of its own: an empty one closes on
      the opener's line. */
  lemma ClosedColumnLines(opener: string, entries: seq<string>, r: string)
    requires Free(opener, '\n') && AllFree(entries, '\n')
    ensures SplitLines(ColumnVector(opener, entries, "};" + "\n") + r)
         == (if entries == [] then [opener + "};"] else [opener + entries[0]] + entries[1..] + ["};"])
            + SplitLines(r)
  {
    if entries == [] {
      assert ColumnVector(opener, entries, "};" + "\n") + r == (opener + "};") + "\n" + r;
      FreeConcat(opener, "};", '\n');
      SplitLinesCons(opener + "};", r);
    } else {
      ColumnVectorLines(opener, entries, "};" + "\n", r);
      SplitLinesCons("};", r);
    }
  }

  /** Two lines, each followed by its newline. */
  lemma TwoLines(a: string, b: string)
    ensures Unlines([a, b]) == a + "\n" + b + "\n"
  {
    assert [a, b][1..] == [b];
    assert Unlines([b]) == b + "\n" + Unlines([]);
  }

  // ---------------------------------------------------------- bounding box

  /** A bounding box: the two opposite corners, in millimetres. */
  datatype BoundingBox = BoundingBox(x0: int, y0: int, z0: int, x1: int, y1: int, z1: int)

  /** `bb = [-84, -102, -84, 84, 102, 84]` when the caller passes none. */
  const DefaultBoundingBox: BoundingBox := BoundingBox(-84, -102, -84, 84, 102, 84)

  /** The keyword defaults of `normalize_pet` (`write_vox_size='[1 1 1]'`,
      `wrapping=True`, `interpolation=4`); `normalize_mri` and
      `normalize_multiple_pets` share the voxel size and interpolation. */
  const DefaultVoxSize: string := "[1 1 1]"
  const DefaultWrapping: bool := true
  const DefaultInterpolation: int := 4

  /** The keyword defaults of `create_mfile_contrast`. */
  const DefaultContrastName: string := "contrast"
  const DefaultContrastWeights: string := "[1 -1 0]"

  function Corner(x: int, y: int, z: int): string {
    IntToString(x) + " " + IntToString(y) + " " + IntToString(z)
  }

  /** `bb[0] bb[1] bb[2]`, a newline, `bb[3] bb[4] bb[5]];`, as written after `bb =[`. */
  function BoundingBoxText(bb: BoundingBox): string {
    Corner(bb.x0, bb.y0, bb.z0) + "\n" + Corner(bb.x1, bb.y1, bb.z1) + "];"
  }

  lemma DefaultBoundingBoxText()
    ensures BoundingBoxText(DefaultBoundingBox) == "-84 -102 -84\n84 102 84];"
  {
    LowCornerText();
    HighCornerText();
  }

  lemma LowCornerText()
    ensures Corner(-84, -102, -84) == "-84 -102 -84"
  {
    assert NatToString(84) == "84";
    assert NatToString(102) == "102";
  }

  lemma HighCornerText()
    ensures Corner(84, 102, 84) == "84 102 84"
  {
    assert NatToString(84) == "84";
    assert NatToString(102) == "102";
  }

  lemma IntTextFree(i: int, c: char)
    requires c != '-' && !IsDigit(c)
    ensures Free(IntToString(i), c)
  {
  }

  /** A corner row splits on spaces into its three rendered coordinates. */
  lemma CornerFields(x: int, y: int, z: int)
    ensures SplitOn(Corner(x, y, z), ' ') == [IntToString(x), IntToString(y), IntToString(z)]
    ensures Free(Corner(x, y, z), '\n')
  {
    IntTextFree(x, ' ');
    IntTextFree(y, ' ');
    IntTextFree(z, ' ');
    CornerFree(x, y, z);
    calc {
      SplitOn(Corner(x, y, z), ' ');
      { assert Corner(x, y, z) == IntToString(x) + [' '] + (IntToString(y) + [' '] + IntToString(z)); }
      SplitOn(IntToString(x) + [' '] + (IntToString(y) + [' '] + IntToString(z)), ' ');
      { SplitOnCons(IntToString(x), ' ', IntToString(y) + [' '] + IntToString(z)); }
      [IntToString(x)] + SplitOn(IntToString(y) + [' '] + IntToString(z), ' ');
      { SplitOnCons(IntToString(y), ' ', IntToString(z)); }
      [IntToString(x)] + ([IntToString(y)] + SplitOn(IntToString(z), ' '));
    }
  }

  /** A corner row is a single line. */
  lemma CornerFree(x: int, y: int, z: int)
    ensures Free(Corner(x, y, z), '\n')
  {
    IntTextFree(x, '\n');
    IntTextFree(y, '\n');
    IntTextFree(z, '\n');
    FreeConcat(IntToString(x), " ", '\n');
    FreeConcat(IntToString(x) + " ", IntToString(y), '\n');
    FreeConcat(IntToString(x) + " " + IntToString(y), " ", '\n');
    FreeConcat(IntToString(x) + " " + IntToString(y) + " ", IntToString(z), '\n');
  }

  lemma CornerInjective(x: int, y: int, z: int, x': int, y': int, z': int)
    requires Corner(x, y, z) == Corner(x', y', z')
    ensures x == x' && y == y' && z == z'
  {
    CornerFields(x, y, z);
    CornerFields(x', y', z');
    IntToStringInjective(x, x');
    IntToStringInjective(y, y');
    IntToStringInjective(z, z');
  }

  /** The box text is two lines: the first corner, then the second corner
      followed by the closing `];`. */
  lemma BoundingBoxTextLines(bb: BoundingBox)
    ensures SplitLines(BoundingBoxText(bb))
         == [Corner(bb.x0, bb.y0, bb.z0), Corner(bb.x1, bb.y1, bb.z1) + "];"]
  {
    var first := Corner(bb.x0, bb.y0, bb.z0);
    var second := Corner(bb.x1, bb.y1, bb.z1) + "];";
    CornerFree(bb.x0, bb.y0, bb.z0);
    CornerFree(bb.x1, bb.y1, bb.z1);
    FreeConcat(Corner(bb.x1, bb.y1, bb.z1), "];", '\n');
    Associative(first + "\n", Corner(bb.x1, bb.y1, bb.z1), "];");
    SplitLinesCons(first, second);
  }

  /** Distinct bounding boxes are rendered as distinct text. */
  lemma BoundingBoxTextInjective(a: BoundingBox, b: BoundingBox)
    requires BoundingBoxText(a) == BoundingBoxText(b)
    ensures a == b
  {
    BoundingBoxTextLines(a);
    BoundingBoxTextLines(b);
    var sa := Corner(a.x1, a.y1, a.z1);
    var sb := Corner(b.x1, b.y1, b.z1);
    assert sa + "];" == sb + "];";
    assert sa == sb by {
      assert |sa| == |sb|;
      assert sa == (sa + "];")[..|sa|];
      assert sb == (sb + "];")[..|sb|];
    }
    CornerInjective(a.x0, a.y0, a.z0, b.x0, b.y0, b.z0);
    CornerInjective(a.x1, a.y1, a.z1, b.x1, b.y1, b.z1);
  }

  /** The wrap directive of the old-normalization jobs. */
  function WrapDirective(prefix: string, wrapping: bool): string {
    if wrapping then prefix + "roptions.wrap = [1 1 1];" + "\n"
    else prefix + "roptions.wrap = [0 0 0];" + "\n"
  }

  /** Images wrap in all three directions exactly when `wrapping` is set,
      and in none exactly when it is not. */
  lemma WrapDirectiveIff(prefix: string, wrapping: bool)
    ensures WrapDirective(prefix, wrapping) == prefix + "roptions.wrap = [1 1 1];\n" <==> wrapping
    ensures WrapDirective(prefix, wrapping) == prefix + "roptions.wrap = [0 0 0];\n" <==> !wrapping
  {
    var on := prefix + "roptions.wrap = [1 1 1];" + "\n";
    var off := prefix + "roptions.wrap = [0 0 0];" + "\n";
    assert on[|prefix| + 17] == '1' && off[|prefix| + 17] == '0';
  }

  // ------------------------------------------------------------- subjects

  /** The three directives of subject `n` (1-based) of a multi-subject
      old-normalization job. */
  function SubjectEntry(prefix: string, n: nat, image: string): seq<string> {
    [ prefix + "subj(" + NatToString(n) + ").source = {'" + image + ",1'};",
      prefix + "subj(" + NatToString(n) + ").wtsrc = '';",
      prefix + "subj(" + NatToString(n) + ").resample = {'" + image + ",1'};" ]
  }

  /** The subject entries of the first |images| subjects, in order. */
  function SubjectLines(prefix: string, images: seq<string>): (ls: seq<string>)
    ensures |ls| == 3 * |images|
    decreases |images|
  {
    if images == [] then []
    else
      var n := |images| - 1;
      SubjectLines(prefix, images[..n]) + SubjectEntry(prefix, n + 1, images[n])
  }

  /** The single write that declares subject `n`: its three directives,
      each ended by a newline. */
  function SubjectWrite(prefix: string, n: nat, image: string): string {
    var i := NatToString(n);
    (prefix + "subj(" + i + ").source = {'" + image + ",1'};") + "\n" +
    (prefix + "subj(" + i + ").wtsrc = '';") + "\n" +
    (prefix + "subj(" + i + ").resample = {'" + image + ",1'};") + "\n"
  }

  /** The writes of `for i in range(len(images)):`, one per subject. */
  function SubjectWrites(prefix: string, images: seq<string>): (ws: seq<string>)
    ensures |ws| == |images|
  {
    seq(|images|, i requires 0 <= i < |images| => SubjectWrite(prefix, i + 1, images[i]))
  }

  /** For i = 1..N in order: source, wtsrc and resample of subject i, source
      and resample both naming the i-th image. */
  lemma {:induction false} SubjectLinesAt(prefix: string, images: seq<string>, i: nat)
    requires i < |images|
    ensures SubjectLines(prefix, images)[3 * i .. 3 * i + 3] == SubjectEntry(prefix, i + 1, images[i])
    decreases |images|
  {
    var n := |images| - 1;
    var front := SubjectLines(prefix, images[..n]);
    var entry := SubjectEntry(prefix, n + 1, images[n]);
    assert SubjectLines(prefix, images) == front + entry;
    if i < n {
      SubjectLinesAt(prefix, images[..n], i);
      assert (front + entry)[3 * i .. 3 * i + 3] == front[3 * i .. 3 * i + 3];
    } else {
      assert (front + entry)[3 * i .. 3 * i + 3] == entry;
    }
  }

  /** The write of one subject is its three directives as whole lines. */
  lemma SubjectWriteLines(prefix: string, n: nat, image: string)
    ensures SubjectWrite(prefix, n, image) == Unlines(SubjectEntry(prefix, n, image))
  {
    var i := NatToString(n);
    UnlinesThree(
      prefix + "subj(" + i + ").source = {'" + image + ",1'};",
      prefix + "subj(" + i + ").wtsrc = '';",
      prefix + "subj(" + i + ").resample = {'" + image + ",1'};");
  }

  /** The subject loop writes exactly the subject entries, in subject order,
      as whole lines. */
  lemma {:induction false} SubjectWritesText(prefix: string, images: seq<string>)
    ensures Concat(SubjectWrites(prefix, images)) == Unlines(SubjectLines(prefix, images))
    decreases |images|
  {
    if images != [] {
      var n := |images| - 1;
      assert SubjectWrites(prefix, images)
          == SubjectWrites(prefix, images[..n]) + [SubjectWrite(prefix, n + 1, images[n])];
      SubjectWritesText(prefix, images[..n]);
      WriteAppends(SubjectWrites(prefix, images[..n]), SubjectWrite(prefix, n + 1, images[n]));
      SubjectWriteLines(prefix, n + 1, images[n]);
      UnlinesAppend(SubjectLines(prefix, images[..n]), SubjectEntry(prefix, n + 1, images[n]));
    }
  }

  /** One subject's directives are single lines when the names are. */
  lemma SubjectEntryFree(prefix: string, n: nat, image: string)
    requires Free(prefix, '\n') && Free(image, '\n')
    ensures AllFree(SubjectEntry(prefix, n, image), '\n')
  {
    var m := NatToString(n);
    assert Free(m, '\n');
    var p := prefix + "subj(" + m;
    FreeConcat(prefix, "subj(", '\n');
    FreeConcat(prefix + "subj(", m, '\n');
    FreeConcat(p, ").source = {'", '\n');
    FreeConcat(p + ").source = {'", image, '\n');
    FreeConcat(p + ").source = {'" + image, ",1'};", '\n');
    FreeConcat(p, ").wtsrc = '';", '\n');
    FreeConcat(p, ").resample = {'", '\n');
    FreeConcat(p + ").resample = {'", image, '\n');
    FreeConcat(p + ").resample = {'" + image, ",1'};", '\n');
  }

  lemma {:induction false} SubjectLinesFree(prefix: string, images: seq<string>)
    requires Free(prefix, '\n') && AllFree(images, '\n')
    ensures AllFree(SubjectLines(prefix, images), '\n')
    decreases |images|
  {
    if images != [] {
      var n := |images| - 1;
      assert AllFree(images[..n], '\n') by {
        forall k | 0 <= k < n ensures Free(images[..n][k], '\n') {
          assert images[..n][k] == images[k];
        }
      }
      SubjectLinesFree(prefix, images[..n]);
      assert Free(images[n], '\n');
      SubjectEntryFree(prefix, n + 1, images[n]);
      AllFreeConcat(SubjectLines(prefix, images[..n]), SubjectEntry(prefix, n + 1, images[n]), '\n');
    }
  }

  // ------------------------------------------------------------- documents

  /** `coregister`: estimate-and-reslice of the source onto the reference. */
  function CoregisterWrites(reference: string, source: string): seq<string> {
    var d := CoregEstwrite;
    [ d + "ref = {'" + reference + ",1'};\n",
      d + "source = {'" + source + ",1'};\n",
      d + "other = {''};\n",
      d + "eoptions.cost_fun = 'nmi';\n",
      d + "eoptions.sep = [4 2];\n",
      d + "eoptions.tol = [0.02 0.02 0.02 0.001 0.001 0.001 0.01 0.01 0.01 0.001 0.001 0.001];\n",
      d + "eoptions.fwhm = [7 7]\n;",
      d + "roptions.interp = 4;\n",
      d + "roptions.wrap = [0 0 0];\n",
      d + "roptions.mask = 0;\n",
      d + "roptions.prefix = 'r';\n" ]
  }

  /** `normalize_pet`: the subject with its resample list, the fixed
      estimation options, the wrap directive and the `w` prefix. */
  function NormalizePetWrites(imageToNorm: string, template: string, resample: seq<string>,
                              bb: BoundingBox, voxSize: string, wrapping: bool, interpolation: int): seq<string>
  {
    var d := OldNormEstwrite;
    [ d + "subj.source = {'" + imageToNorm + ",1'};\n" +
      d + "subj.wtsrc = '';" + "\n" +
      d + "subj.resample = {" ]
    + ListWrites(resample, Frame, "};" + "\n")
    + [ PetEstimationOptions(template, bb, voxSize, interpolation),
        WrapDirective(d, wrapping),
        d + "roptions.prefix ='w';\n" ]
  }

  /** The single write of `normalize_pet` holding the fixed estimation
      options and the writing options up to the interpolation. */
  function PetEstimationOptions(template: string, bb: BoundingBox, voxSize: string, interpolation: int): string {
    var d := OldNormEstwrite;
    d + "eoptions.template = {'" + template + ",1'};\n" +
    d + "eoptions.weight = '';\n" +
    d + "eoptions.smosrc = 8;\n" +
    d + "eoptions.smoref = 3;\n" +
    d + "eoptions.regtype ='mni';\n" +
    d + "eoptions.cutoff = 15;\n" +
    d + "eoptions.nits = 16;\n" +
    d + "eoptions.reg = 1;\n" +
    d + "roptions.preserve = 0;\n" +
    d + "roptions.bb =[" + BoundingBoxText(bb) + "\n" +
    d + "roptions.vox =" + voxSize + ";" + "\n" +
    d + "roptions.interp =" + IntToString(interpolation) + ";" + "\n"
  }

  /** `normalize_mri`: unified segmentation-normalization. */
  function NormalizeMriWrites(imageToNorm: string, template: string, resample: seq<string>,
                              bb: BoundingBox, voxSize: string, interpolation: int): seq<string>
  {
    var d := NormaliseEstwrite;
    [ d + "subj.vol = {'" + imageToNorm + ",1'};" + "\n" +
      d + "subj.resample = {" + "\n" ]
    + ListWrites(resample, Frame, "};" + "\n")
    + [ d + "eoptions.biasreg = 0.01;\n" +
        d + "eoptions.biasfwhm = 60;\n" +
        d + "eoptions.tpm = {'" + template + "'};\n" +
        d + "eoptions.affreg = 'mni';\n" +
        d + "eoptions.reg = [0 0.001 0.5 0.05 0.2];\n" +
        d + "eoptions.fwhm = 0;\n" +
        d + "eoptions.samp = 3;\n" +
        d + "woptions.bb = [" +
        BoundingBoxText(bb) + "\n" +
        d + "woptions.vox = " + voxSize + ";" + "\n" +
        d + "woptions.interp = " + IntToString(interpolation) + ";" + "\n" ]
  }

  /** `new_deformations`: pull the images through a deformation field,
      asking the engine for `prefix` on the outputs. */
  function NewDeformationsWrites(defMatrix: string, images: seq<string>, interpolation: int, prefix: string): seq<string> {
    [ DefsComp + "def = {'" + defMatrix + "'};\n" +
      DefsOut + "pull.fnames = {" + "\n" ]
    + ListWrites(images, "", "};\n")
    + [ DefsOut + "pull.savedir.savesrc = 1;\n" +
        DefsOut + "pull.interp =" + IntToString(interpolation) + ";\n" +
        DefsOut + "pull.mask = 0;\n" +
        DefsOut + "pull.fwhm = [0 0 0];\n" +
        DefsOut + "pull.prefix ='" + prefix + "';\n" ]
  }

  /** `old_deformations`: pull the images through the inverse of a saved
      old-normalization, in the space of `baseImage`, into `saveDir`. */
  function OldDeformationsWrites(defMatrix: string, baseImage: string, images: seq<string>,
                                 saveDir: string, interpolation: int): seq<string>
  {
    [ DefsCompInv + "comp{1}.sn2def.matname = {'" + defMatrix + "'};" + "\n" +
      DefsCompInv + "comp{1}.sn2def.vox = [NaN NaN NaN];" + "\n" +
      DefsCompInv + "comp{1}.sn2def.bb = [NaN NaN NaN" + "\n" +
      "NaN NaN NaN];" + "\n" +
      DefsCompInv + "space = {'" + baseImage + "'};" + "\n" +
      DefsOut + "pull.fnames = {" + "\n" ]
    + ListWrites(images, "", "};" + "\n")
    + [ DefsOut + "pull.savedir.saveusr = {'" + saveDir + "/'};" + "\n" +
        DefsOut + "pull.interp = " + IntToString(interpolation) + ";" + "\n" +
        DefsOut + "pull.mask = 1;\n" +
        DefsOut + "pull.fwhm = [0 0 0];\n" ]
  }

  lemma DeformationPrefixesSingleLine()
    ensures Free(NormaliseEstwrite, '\n') && Free(DefsComp, '\n')
    ensures Free(DefsCompInv, '\n') && Free(DefsOut, '\n')
  {
    NormaliseEstwriteSingleLine();
    DefsCompSingleLine();
    DefsCompInvSingleLine();
    DefsOutSingleLine();
  }

  lemma NormaliseEstwriteSingleLine() ensures Free(NormaliseEstwrite, '\n') {
    assert NormaliseEstwrite == "matlabbatch{1}.spm.spatial." + "normalise.estwrite.";
    FreeConcat("matlabbatch{1}.spm.spatial.", "normalise.estwrite.", '\n');
  }
  lemma DefsCompSingleLine() ensures Free(DefsComp, '\n') {}
  lemma DefsCompInvSingleLine() ensures Free(DefsCompInv, '\n') {}
  lemma DefsOutSingleLine() ensures Free(DefsOut, '\n') {}

  /** `<prefix><field><value><close>` holds no line break when none of its
      parts does. */
  lemma DirectiveFree(prefix: string, field: string, value: string, close: string)
    requires Free(prefix, '\n') && Free(field, '\n') && Free(value, '\n') && Free(close, '\n')
    ensures Free(prefix + field + value + close, '\n')
  {
    FreeConcat(prefix, field, '\n');
    FreeConcat(prefix + field, value, '\n');
    FreeConcat(prefix + field + value, close, '\n');
  }

  /** The resample list of `normalize_pet`. The opener `subj.resample = {`
      is written with no newline after it, so after the source and
      weighting lines the first image shares the opener's line; every
      further image has a line of its own, in order, then `};`. */
  lemma NormalizePetResampleLines(imageToNorm: string, template: string, resample: seq<string>,
                                  bb: BoundingBox, voxSize: string, wrapping: bool, interpolation: int)
    requires Free(imageToNorm, '\n') && AllFree(resample, '\n')
    ensures var d := OldNormEstwrite;
      var heads := [d + "subj.source = {'" + imageToNorm + ",1'};", d + "subj.wtsrc = '';"];
      var entries := ListLines(resample, Frame);
      var expected := if resample == [] then heads + [d + "subj.resample = {" + "};"]
                      else heads + [d + "subj.resample = {" + entries[0]] + entries[1..] + ["};"];
      var ls := SplitLines(Concat(NormalizePetWrites(imageToNorm, template, resample, bb, voxSize, wrapping, interpolation)));
      |ls| > |expected| && ls[..|expected|] == expected
  {
    var d := OldNormEstwrite;
    var source := d + "subj.source = {'" + imageToNorm + ",1'};";
    var weight := d + "subj.wtsrc = '';";
    var opener := d + "subj.resample = {";
    PrefixesSingleLine();
    DirectiveFree(d, "subj.source = {'", imageToNorm, ",1'};");
    FreeConcat(d, "subj.wtsrc = '';", '\n');
    FreeConcat(d, "subj.resample = {", '\n');
    assert AllFree([source, weight], '\n');
    PetSubjectText(imageToNorm);
    var rest := [ PetEstimationOptions(template, bb, voxSize, interpolation),
                  WrapDirective(d, wrapping),
                  d + "roptions.prefix ='w';\n" ];
    assert NormalizePetWrites(imageToNorm, template, resample, bb, voxSize, wrapping, interpolation)
        == [Unlines([source, weight]) + opener] + ListWrites(resample, Frame, "};" + "\n") + rest;
    SharedOpenerFirst([source, weight], opener, resample, Frame, rest);
  }

  /** The subject write of `normalize_pet`: two whole lines, then the
      resample opener. */
  lemma PetSubjectText(imageToNorm: string)
    ensures var d := OldNormEstwrite;
      d + "subj.source = {'" + imageToNorm + ",1'};\n" + d + "subj.wtsrc = '';" + "\n" + d + "subj.resample = {"
      == Unlines([d + "subj.source = {'" + imageToNorm + ",1'};", d + "subj.wtsrc = '';"]) + (d + "subj.resample = {")
  {
    var d := OldNormEstwrite;
    var source := d + "subj.source = {'" + imageToNorm + ",1'};";
    TwoLines(source, d + "subj.wtsrc = '';");
    assert ",1'};\n" == ",1'};" + "\n";
    Associative(d + "subj.source = {'" + imageToNorm, ",1'};", "\n");
    Associative(source + "\n", d, "subj.wtsrc = '';");
    Associative(source + "\n" + (d + "subj.wtsrc = '';") + "\n", d, "subj.resample = {");
  }

  /** The resample list of `normalize_mri`: the volume line and the
      `subj.resample = {` opener each on a line of their own, then one line
      per image, in order, then `};`. */
  lemma NormalizeMriResampleLines(imageToNorm: string, template: string, resample: seq<string>,
                                  bb: BoundingBox, voxSize: string, interpolation: int)
    requires Free(imageToNorm, '\n') && AllFree(resample, '\n')
    ensures var d := NormaliseEstwrite;
      var expected := [d + "subj.vol = {'" + imageToNorm + ",1'};", d + "subj.resample = {"]
                      + ListLines(resample, Frame) + ["};"];
      var ls := SplitLines(Concat(NormalizeMriWrites(imageToNorm, template, resample, bb, voxSize, interpolation)));
      |ls| > |expected| && ls[..|expected|] == expected
  {
    var d := NormaliseEstwrite;
    var vol := d + "subj.vol = {'" + imageToNorm + ",1'};";
    var opener := d + "subj.resample = {";
    DeformationPrefixesSingleLine();
    DirectiveFree(d, "subj.vol = {'", imageToNorm, ",1'};");
    FreeConcat(d, "subj.resample = {", '\n');
    assert AllFree([vol, opener], '\n');
    TwoLines(vol, opener);
    Associative(vol + "\n", d, "subj.resample = {");
    var w := NormalizeMriWrites(imageToNorm, template, resample, bb, voxSize, interpolation);
    assert w == [Unlines([vol, opener])] + ListWrites(resample, Frame, "};" + "\n") + w[|resample| + 2..];
    HeadedListFirst([vol, opener], resample, Frame, w[|resample| + 2..]);
  }

  /** The image list of `new_deformations`: the deformation field and the
      `pull.fnames = {` opener each on a line of their own, then one quoted
      image per line, in order, then `};`. */
  lemma NewDeformationsFnamesLines(defMatrix: string, images: seq<string>, interpolation: int, prefix: string)
    requires Free(defMatrix, '\n') && AllFree(images, '\n')
    ensures var expected := [DefsComp + "def = {'" + defMatrix + "'};", DefsOut + "pull.fnames = {"]
                            + ListLines(images, "") + ["};"];
      var ls := SplitLines(Concat(NewDeformationsWrites(defMatrix, images, interpolation, prefix)));
      |ls| > |expected| && ls[..|expected|] == expected
  {
    var field := DefsComp + "def = {'" + defMatrix + "'};";
    var opener := DefsOut + "pull.fnames = {";
    DeformationPrefixesSingleLine();
    DirectiveFree(DefsComp, "def = {'", defMatrix, "'};");
    FreeConcat(DefsOut, "pull.fnames = {", '\n');
    assert AllFree([field, opener], '\n');
    TwoLines(field, opener);
    assert "'};\n" == "'};" + "\n";
    assert "};\n" == "};" + "\n";
    Associative(DefsComp + "def = {'" + defMatrix, "'};", "\n");
    Associative(field + "\n", DefsOut, "pull.fnames = {");
    var w := NewDeformationsWrites(defMatrix, images, interpolation, prefix);
    assert w == [Unlines([field, opener])] + ListWrites(images, "", "};" + "\n") + w[|images| + 2..];
    HeadedListFirst([field, opener], images, "", w[|images| + 2..]);
  }

  /** The image list of `old_deformations`: the inverse-normalization
      directives (the bounding box spread over two lines), the space image
      and the `pull.fnames = {` opener, each on lines of their own, then one
      quoted image per line, in order, then `};`. */
  lemma OldDeformationsFnamesLines(defMatrix: string, baseImage: string, images: seq<string>,
                                   saveDir: string, interpolation: int)
    requires Free(defMatrix, '\n') && Free(baseImage, '\n') && AllFree(images, '\n')
    ensures var d := DefsCompInv;
      var expected := [ d + "comp{1}.sn2def.matname = {'" + defMatrix + "'};",
                        d + "comp{1}.sn2def.vox = [NaN NaN NaN];",
                        d + "comp{1}.sn2def.bb = [NaN NaN NaN",
                        "NaN NaN NaN];",
                        d + "space = {'" + baseImage + "'};",
                        DefsOut + "pull.fnames = {" ]
                      + ListLines(images, "") + ["};"];
      var ls := SplitLines(Concat(OldDeformationsWrites(defMatrix, baseImage, images, saveDir, interpolation)));
      |ls| > |expected| && ls[..|expected|] == expected
  {
    var d := DefsCompInv;
    var heads := [ d + "comp{1}.sn2def.matname = {'" + defMatrix + "'};",
                   d + "comp{1}.sn2def.vox = [NaN NaN NaN];",
                   d + "comp{1}.sn2def.bb = [NaN NaN NaN",
                   "NaN NaN NaN];",
                   d + "space = {'" + baseImage + "'};",
                   DefsOut + "pull.fnames = {" ];
    DeformationPrefixesSingleLine();
    DirectiveFree(d, "comp{1}.sn2def.matname = {'", defMatrix, "'};");
    FreeConcat(d, "comp{1}.sn2def.vox = [NaN NaN NaN];", '\n');
    FreeConcat(d, "comp{1}.sn2def.bb = [NaN NaN NaN", '\n');
    DirectiveFree(d, "space = {'", baseImage, "'};");
    FreeConcat(DefsOut, "pull.fnames = {", '\n');
    assert AllFree(heads, '\n');
    OldDeformationsHeadText(defMatrix, baseImage);
    var w := OldDeformationsWrites(defMatrix, baseImage, images, saveDir, interpolation);
    assert w == [Unlines(heads)] + ListWrites(images, "", "};" + "\n") + w[|images| + 2..];
    HeadedListFirst(heads, images, "", w[|images| + 2..]);
  }

  /** The first write of `old_deformations` is six whole lines. */
  lemma OldDeformationsHeadText(defMatrix: string, baseImage: string)
    ensures var d := DefsCompInv;
      d + "comp{1}.sn2def.matname = {'" + defMatrix + "'};" + "\n" +
      d + "comp{1}.sn2def.vox = [NaN NaN NaN];" + "\n" +
      d + "comp{1}.sn2def.bb = [NaN NaN NaN" + "\n" +
      "NaN NaN NaN];" + "\n" +
      d + "space = {'" + baseImage + "'};" + "\n" +
      DefsOut + "pull.fnames = {" + "\n"
      == Unlines([ d + "comp{1}.sn2def.matname = {'" + defMatrix + "'};",
                   d + "comp{1}.sn2def.vox = [NaN NaN NaN];",
                   d + "comp{1}.sn2def.bb = [NaN NaN NaN",
                   "NaN NaN NaN];",
                   d + "space = {'" + baseImage + "'};",
                   DefsOut + "pull.fnames = {" ])
  {
    var d := DefsCompInv;
    var a := d + "comp{1}.sn2def.matname = {'" + defMatrix + "'};";
    var b := d + "comp{1}.sn2def.vox = [NaN NaN NaN];";
    var c := d + "comp{1}.sn2def.bb = [NaN NaN NaN";
    var e := d + "space = {'" + baseImage + "'};";
    var f := DefsOut + "pull.fnames = {";
    UnlinesThree(a, b, c);
    UnlinesThree("NaN NaN NaN];", e, f);
    UnlinesAppend([a, b, c], ["NaN NaN NaN];", e, f]);
    assert [a, b, c] + ["NaN NaN NaN];", e, f] == [a, b, c, "NaN NaN NaN];", e, f];
    Associative(a + "\n", d, "comp{1}.sn2def.vox = [NaN NaN NaN];");
    Associative(a + "\n" + b + "\n", d, "comp{1}.sn2def.bb = [NaN NaN NaN");
    var x := a + "\n" + b + "\n" + c + "\n" + "NaN NaN NaN];" + "\n";
    Associative(x, d + "space = {'" + baseImage, "'};");
    Associative(x, d + "space = {'", baseImage);
    Associative(x, d, "space = {'");
    Associative(x + e + "\n", DefsOut, "pull.fnames = {");
    SixLinesRegrouped(a, b, c, "NaN NaN NaN];", e, f);
  }

  lemma SixLinesRegrouped(a: string, b: string, c: string, d: string, e: string, f: string)
    ensures a + "\n" + b + "\n" + c + "\n" + d + "\n" + e + "\n" + f + "\n"
         == (a + "\n" + b + "\n" + c + "\n") + (d + "\n" + e + "\n" + f + "\n")
  {
  }

  /** `apply_normalization_to_atlas`: push the atlas through the inverse
      field, preserving labels (`preserve = 2`). */
  function AtlasWrites(defMatrix: string, normMri: string, atlas: string): seq<string> {
    [ Defs + "comp{1}.inv.comp{1}.def = {'" + defMatrix + "'};\n",
      Defs + "comp{1}.inv.space = {'" + normMri + "'};\n",
      Defs + "out{1}.push.fnames = {'" + atlas + "'};\n",
      Defs + "out{1}.push.weight = {''};\n",
      Defs + "out{1}.push.savedir.savesrc = 1;\n",
      Defs + "out{1}.push.fov.file = {'" + normMri + "'};\n",
      Defs + "out{1}.push.preserve = 2;\n",
      Defs + "out{1}.push.fwhm = [0 0 0];\n",
      Defs + "out{1}.push.prefix = 'w';\n" ]
  }

  /** Keyword parameters of `normalize_multiple_pets`. */
  datatype OldNormOptions = OldNormOptions(
    cutoff: int, nits: int, reg: int, preserve: int, regType: string,
    sourceSmoothing: int, templateSmoothing: int, bb: BoundingBox,
    voxSize: string, wrapping: bool, interpolation: int, prefix: string)

  const DefaultOldNormOptions: OldNormOptions :=
    OldNormOptions(15, 16, 1, 0, "mni", 8, 3, DefaultBoundingBox, DefaultVoxSize, DefaultWrapping, DefaultInterpolation, "w")

  /** The single write of the options shared by all subjects of
      `normalize_multiple_pets`, up to the interpolation. */
  function SharedOldNormOptions(template: string, o: OldNormOptions): string {
    var d := OldNormEstwrite;
    d + "eoptions.template = {'" + template + ",1'};" + "\n" +
    d + "eoptions.weight = '';" + "\n" +
    d + "eoptions.smosrc =" + IntToString(o.sourceSmoothing) + ";" + "\n" +
    d + "eoptions.smoref =" + IntToString(o.templateSmoothing) + ";" + "\n" +
    d + "eoptions.regtype ='" + o.regType + "';" + "\n" +
    d + "eoptions.cutoff =" + IntToString(o.cutoff) + ";" + "\n" +
    d + "eoptions.nits =" + IntToString(o.nits) + ";" + "\n" +
    d + "eoptions.reg =" + IntToString(o.reg) + ";" + "\n" +
    d + "roptions.preserve =" + IntToString(o.preserve) + ";" + "\n" +
    d + "roptions.bb =[" + BoundingBoxText(o.bb) + "\n" +
    d + "roptions.vox =" + o.voxSize + ";" + "\n" +
    d + "roptions.interp =" + IntToString(o.interpolation) + ";" + "\n"
  }

  /** `normalize_multiple_pets`: one `subj(i)` entry per image, then the
      options shared by all subjects. */
  function NormalizeMultiplePetsWrites(images: seq<string>, template: string, o: OldNormOptions): seq<string> {
    SubjectWrites(OldNormEstwrite, images)
    + [ SharedOldNormOptions(template, o),
        WrapDirective(OldNormEstwrite, o.wrapping),
        OldNormEstwrite + "roptions.prefix ='" + o.prefix + "';" + "\n" ]
  }

  /** Every subject entry precedes the shared options: the first 3N lines
      are the subject directives, in subject order. */
  lemma SubjectsBeforeSharedOptions(images: seq<string>, template: string, o: OldNormOptions)
    requires AllFree(images, '\n')
    ensures var ls := SplitLines(Concat(NormalizeMultiplePetsWrites(images, template, o)));
      |ls| > 3 * |images| &&
      ls[..3 * |images|] == SubjectLines(OldNormEstwrite, images)
  {
    PrefixesSingleLine();
    SubjectLinesFree(OldNormEstwrite, images);
    SubjectWritesText(OldNormEstwrite, images);
    WrittenLinesFirst(SubjectWrites(OldNormEstwrite, images),
      [ SharedOldNormOptions(template, o),
        WrapDirective(OldNormEstwrite, o.wrapping),
        OldNormEstwrite + "roptions.prefix ='" + o.prefix + "';" + "\n" ],
      SubjectLines(OldNormEstwrite, images));
  }

  /** `smooth_multiple_imgs`: Gaussian smoothing with kernel `kernel`. */
  function SmoothWrites(images: seq<string>, kernel: string): seq<string> {
    var d := SmoothJob;
    [ d + "data = {\n" ]
    + ListWrites(images, Frame, "};" + "\n")
    + [ d + "fwhm =" + kernel + ";" + "\n",
        d + "dtype = 0;" + "\n",
        d + "im = 0;" + "\n",
        d + "prefix ='" + "s" + "';" + "\n" ]
  }

  /** The smoothing job's lines: the `data = {` opener, one line per image
      in order, `};`, then the kernel, datatype, mask and prefix directives. */
  lemma SmoothDocLines(images: seq<string>, kernel: string)
    requires AllFree(images, '\n')
    ensures var ls := SplitLines(Concat(SmoothWrites(images, kernel)));
      |ls| > |images| + 2 &&
      ls[..|images| + 2] == [SmoothJob + "data = {"] + ListLines(images, Frame) + ["};"]
  {
    var d := SmoothJob;
    var opener := d + "data = {";
    PrefixesSingleLine();
    FreeConcat(d, "data = {", '\n');
    OpenedListText(opener, images, Frame);
    var front := [opener + "\n"] + ListWrites(images, Frame, "};" + "\n");
    var rest := [ d + "fwhm =" + kernel + ";" + "\n", d + "dtype = 0;" + "\n",
                  d + "im = 0;" + "\n", d + "prefix ='" + "s" + "';" + "\n" ];
    assert d + "data = {\n" == opener + "\n" by {
      assert "data = {\n" == "data = {" + "\n";
      Associative(d, "data = {", "\n");
    }
    assert SmoothWrites(images, kernel) == front + rest;
    WrittenLinesFirst(front, rest, [opener] + ListLines(images, Frame) + ["};"]);
  }

  /** A two-sample design: the two groups' images with one age per image,
      and optionally one total intracranial volume per image (an empty
      `tiv1` stands for Python's `False`). */
  datatype GroupDesign = GroupDesign(
    group1: seq<string>, group2: seq<string>,
    ages1: seq<string>, ages2: seq<string>,
    tiv1: seq<string>, tiv2: seq<string>)

  /** Design flags of `create_mfile_model`. */
  datatype ModelFlags = ModelFlags(dependence: int, variance: int, gmScaling: int, ancova: int, globalNorm: int)

  const DefaultModelFlags: ModelFlags := ModelFlags(0, 1, 0, 0, 1)

  /** The scans of both groups as `create_mfile_model` writes them. */
  function ModelScansWrites(saveDir: string, group1: seq<string>, group2: seq<string>): seq<string> {
    var d := FactorialDesign;
    [ d + "dir = {'" + saveDir + "/'};" + "\n" +
      "%%" + "\n" +
      d + "des.t2.scans1 = {" + "\n" ]
    + ListWrites(group1, Frame, "};" + "\n")
    + [ d + "des.t2.scans2 = {" + "\n" ]
    + ListWrites(group2, Frame, "};" + "\n")
  }

  /** The design flags and the Age covariate (group 1 ages, then group 2). */
  function AgeCovariateWrites(ages1: seq<string>, ages2: seq<string>, f: ModelFlags): seq<string> {
    var d := FactorialDesign;
    [ d + "des.t2.dept = " + IntToString(f.dependence) + ";" + "\n" +
      d + "des.t2.variance = " + IntToString(f.variance) + ";" + "\n" +
      d + "des.t2.gmsca = " + IntToString(f.gmScaling) + ";" + "\n" +
      d + "des.t2.ancova = " + IntToString(f.ancova) + ";" + "\n" ]
    + ColumnWrites(d + "cov(1).c = [", ages1, ages2, "];" + "\n" + "%%" + "\n")
    + [ d + "cov(1).cname = 'Age';" + "\n" +
        d + "cov(1).iCFI = 1;" + "\n" +
        d + "cov(1).iCC = 5;" + "\n" ]
  }

  /** The TIV covariate (group 1 TIVs, then group 2), written only when
      group 1 has TIVs. */
  function TivCovariateWrites(tiv1: seq<string>, tiv2: seq<string>): seq<string> {
    var d := FactorialDesign;
    if tiv1 != [] then
      ColumnWrites(d + "cov(2).c = [", tiv1, tiv2, "];" + "\n" + "%%" + "\n")
      + [ d + "cov(2).cname = 'TIV';" + "\n" +
          d + "cov(2).iCFI = 1;" + "\n" +
          d + "cov(2).iCC = 1;" + "\n" ]
    else []
  }

  /** The masking and global-normalization directives. */
  function MaskingWrites(mask: string, f: ModelFlags): seq<string> {
    var d := FactorialDesign;
    [ d + "multi_cov = struct('files', {}, 'iCFI', {}, 'iCC', {});" + "\n" +
      d + "masking.tm.tm_none = 1;" + "\n" +
      d + "masking.im = 0;" + "\n" +
      d + "masking.em = {'" + mask + ",1'};" + "\n" +
      d + "globalc.g_omit = 1;" + "\n" +
      d + "globalm.gmsca.gmsca_no = 1;" + "\n" +
      d + "globalm.glonorm = " + IntToString(f.globalNorm) + ";" + "\n" ]
  }

  /** `create_mfile_model`: the unpaired two-sample t-test design. */
  function ModelWrites(saveDir: string, g: GroupDesign, mask: string, f: ModelFlags): seq<string> {
    ModelScansWrites(saveDir, g.group1, g.group2) + AgeCovariateWrites(g.ages1, g.ages2, f)
    + TivCovariateWrites(g.tiv1, g.tiv2) + MaskingWrites(mask, f)
  }

  /** Leaving out a run of writes leaves the text unchanged exactly when
      that run writes nothing. */
  lemma DropMiddle(front: seq<string>, middle: seq<string>, back: seq<string>)
    ensures Concat(front + middle + back) == Concat(front + back) <==> Concat(middle) == ""
  {
    ConcatAppend(front + middle, back);
    ConcatAppend(front, middle);
    ConcatAppend(front, back);
    if Concat(front + middle + back) == Concat(front + back) {
      assert |Concat(middle)| == 0;
    }
  }

  /** The TIV covariate writes something exactly when group 1 has TIVs. */
  lemma TivCovariateNonEmpty(tiv1: seq<string>, tiv2: seq<string>)
    ensures Concat(TivCovariateWrites(tiv1, tiv2)) == "" <==> tiv1 == []
  {
    if tiv1 != [] {
      var ws := TivCovariateWrites(tiv1, tiv2);
      var opening := FactorialDesign + "cov(2).c = [";
      assert ws[0] == opening;
      assert Concat(ws) == opening + Concat(ws[1..]);
    }
  }

  /** The TIV covariate appears exactly when group 1 has TIVs: without them
      the job is the same whatever group 2's TIVs are, and with them it
      differs from the job without the covariate. */
  lemma TivCovariateIffGroup1Tiv(saveDir: string, g: GroupDesign, mask: string, f: ModelFlags)
    ensures Concat(ModelWrites(saveDir, g, mask, f)) == Concat(ModelWrites(saveDir, g.(tiv1 := [], tiv2 := []), mask, f))
        <==> g.tiv1 == []
  {
    var front := ModelScansWrites(saveDir, g.group1, g.group2) + AgeCovariateWrites(g.ages1, g.ages2, f);
    var middle := TivCovariateWrites(g.tiv1, g.tiv2);
    var back := MaskingWrites(mask, f);
    assert TivCovariateWrites([], []) == [];
    assert ModelWrites(saveDir, g.(tiv1 := [], tiv2 := []), mask, f) == front + back;
    DropMiddle(front, middle, back);
    TivCovariateNonEmpty(g.tiv1, g.tiv2);
  }

  /** The two groups' scan lists: the output directory, the `%%` cell
      marker, then group 1's images one per line in order, `};`, the
      `scans2` opener and group 2's images one per line in order, `};`. */
  lemma ModelScansLines(saveDir: string, g: GroupDesign, mask: string, f: ModelFlags)
    requires Free(saveDir, '\n') && AllFree(g.group1, '\n') && AllFree(g.group2, '\n')
    ensures var d := FactorialDesign;
      var expected := [d + "dir = {'" + saveDir + "/'};", "%%"]
        + ([d + "des.t2.scans1 = {"] + ListLines(g.group1, Frame) + ["};"])
        + ([d + "des.t2.scans2 = {"] + ListLines(g.group2, Frame) + ["};"]);
      var ls := SplitLines(Concat(ModelWrites(saveDir, g, mask, f)));
      |ls| > |expected| && ls[..|expected|] == expected
  {
    var rest := AgeCovariateWrites(g.ages1, g.ages2, f) + TivCovariateWrites(g.tiv1, g.tiv2) + MaskingWrites(mask, f);
    assert ModelWrites(saveDir, g, mask, f) == ModelScansWrites(saveDir, g.group1, g.group2) + rest;
    ModelScansFirst(saveDir, g.group1, g.group2, rest);
  }

  /** Whatever follows them, the scans read back first, line by line. */
  lemma ModelScansFirst(saveDir: string, group1: seq<string>, group2: seq<string>, rest: seq<string>)
    requires Free(saveDir, '\n') && AllFree(group1, '\n') && AllFree(group2, '\n')
    ensures var d := FactorialDesign;
      var expected := [d + "dir = {'" + saveDir + "/'};", "%%"]
        + ([d + "des.t2.scans1 = {"] + ListLines(group1, Frame) + ["};"])
        + ([d + "des.t2.scans2 = {"] + ListLines(group2, Frame) + ["};"]);
      var ls := SplitLines(Concat(ModelScansWrites(saveDir, group1, group2) + rest));
      |ls| > |expected| && ls[..|expected|] == expected
  {
    var d := FactorialDesign;
    var dirLine := d + "dir = {'" + saveDir + "/'};";
    var opener1 := d + "des.t2.scans1 = {";
    var opener2 := d + "des.t2.scans2 = {";
    var head := [dirLine, "%%", opener1];
    var scans1 := ListLines(group1, Frame) + ["};"];
    var scans2 := [opener2] + ListLines(group2, Frame) + ["};"];
    ModelScansFree(saveDir, group1, group2);
    var expected := head + scans1 + scans2;
    assert expected == [dirLine, "%%"] + ([opener1] + ListLines(group1, Frame) + ["};"])
      + ([opener2] + ListLines(group2, Frame) + ["};"]);
    ModelScansText(saveDir, group1, group2);
    WrittenLinesFirst(ModelScansWrites(saveDir, group1, group2), rest, expected);
  }

  /** None of the scan section's lines holds a line break. */
  lemma ModelScansFree(saveDir: string, group1: seq<string>, group2: seq<string>)
    requires Free(saveDir, '\n') && AllFree(group1, '\n') && AllFree(group2, '\n')
    ensures var d := FactorialDesign;
      AllFree([d + "dir = {'" + saveDir + "/'};", "%%", d + "des.t2.scans1 = {"]
              + (ListLines(group1, Frame) + ["};"])
              + ([d + "des.t2.scans2 = {"] + ListLines(group2, Frame) + ["};"]), '\n')
  {
    var d := FactorialDesign;
    var opener2 := d + "des.t2.scans2 = {";
    var head := [d + "dir = {'" + saveDir + "/'};", "%%", d + "des.t2.scans1 = {"];
    var scans1 := ListLines(group1, Frame) + ["};"];
    var scans2 := [opener2] + ListLines(group2, Frame) + ["};"];
    PrefixesSingleLine();
    FreeConcat(d, "des.t2.scans1 = {", '\n');
    FreeConcat(d, "des.t2.scans2 = {", '\n');
    FreeConcat(d, "dir = {'", '\n');
    FreeConcat(d + "dir = {'", saveDir, '\n');
    FreeConcat(d + "dir = {'" + saveDir, "/'};", '\n');
    ListLinesFree(group1, Frame);
    ListLinesFree(group2, Frame);
    AllFreeConcat(ListLines(group1, Frame), ["};"], '\n');
    AllFreeConcat([opener2], ListLines(group2, Frame), '\n');
    AllFreeConcat([opener2] + ListLines(group2, Frame), ["};"], '\n');
    AllFreeConcat(head, scans1, '\n');
    AllFreeConcat(head + scans1, scans2, '\n');
  }

  /** The scans are written as whole lines: the directory, the cell marker
      and the `scans1` opener in one write, then the two lists. */
  lemma ModelScansText(saveDir: string, group1: seq<string>, group2: seq<string>)
    ensures var d := FactorialDesign;
      Concat(ModelScansWrites(saveDir, group1, group2))
      == Unlines([d + "dir = {'" + saveDir + "/'};", "%%", d + "des.t2.scans1 = {"]
                 + (ListLines(group1, Frame) + ["};"])
                 + ([d + "des.t2.scans2 = {"] + ListLines(group2, Frame) + ["};"]))
  {
    var d := FactorialDesign;
    var dirLine := d + "dir = {'" + saveDir + "/'};";
    var opener1 := d + "des.t2.scans1 = {";
    var first := d + "dir = {'" + saveDir + "/'};" + "\n" + "%%" + "\n" + d + "des.t2.scans1 = {" + "\n";
    var a := [dirLine, "%%", opener1];
    var b := ListLines(group1, Frame) + ["};"];
    var c := [d + "des.t2.scans2 = {"] + ListLines(group2, Frame) + ["};"];
    ListWritesLines(group1, Frame, "};");
    ListWritesLines(group2, Frame, "};");
    assert ModelScansWrites(saveDir, group1, group2) == [first] + LineWrites(b) + LineWrites(c);
    ConcatAppend([first] + LineWrites(b), LineWrites(c));
    ConcatAppend([first], LineWrites(b));
    ConcatSingle(first);
    ConcatLineWrites(b);
    ConcatLineWrites(c);
    assert first == Unlines(a) by {
      UnlinesThree(dirLine, "%%", opener1);
      Associative(dirLine + "\n" + "%%" + "\n", d, "des.t2.scans1 = {");
    }
    UnlinesAppend(a + b, c);
    UnlinesAppend(a, b);
  }

  /** `create_mfile_estimate_model` in batch slot `slot`; the two last
      directives are written with no newline between or after them. */
  function EstimateWrites(slot: string, spmMat: string): seq<string> {
    [ slot + "spmmat = {'" + spmMat + "'};\n",
      slot + "write_residuals = 0;",
      slot + "method.Classical = 1;" ]
  }

  /** The estimation job is two lines: the model reference, then the
      residual and method directives run together with no final newline. */
  lemma EstimateDocLines(slot: string, spmMat: string)
    requires Free(slot, '\n') && Free(spmMat, '\n')
    ensures SplitLines(Concat(EstimateWrites(slot, spmMat)))
         == [slot + "spmmat = {'" + spmMat + "'};",
             slot + "write_residuals = 0;" + slot + "method.Classical = 1;"]
  {
    var first := slot + "spmmat = {'" + spmMat + "'};";
    var second := slot + "write_residuals = 0;" + slot + "method.Classical = 1;";
    FreeConcat(slot, "spmmat = {'", '\n');
    FreeConcat(slot + "spmmat = {'", spmMat, '\n');
    FreeConcat(slot + "spmmat = {'" + spmMat, "'};", '\n');
    FreeConcat(slot, "write_residuals = 0;", '\n');
    FreeConcat(slot, "method.Classical = 1;", '\n');
    FreeConcat(slot + "write_residuals = 0;", slot + "method.Classical = 1;", '\n');
    EstimateText(slot, spmMat);
    SplitLinesCons(first, second);
    assert SplitLines(second) == [second];
  }

  /** The estimation job's text, piece by piece. */
  lemma EstimateText(slot: string, spmMat: string)
    ensures Concat(EstimateWrites(slot, spmMat))
         == slot + "spmmat = {'" + spmMat + "'};" + "\n"
            + (slot + "write_residuals = 0;" + slot + "method.Classical = 1;")
  {
    var ws := EstimateWrites(slot, spmMat);
    var residuals := slot + "write_residuals = 0;";
    var method_ := slot + "method.Classical = 1;";
    assert ws[0] == slot + "spmmat = {'" + spmMat + "'};" + "\n" by {
      assert "'};\n" == "'};" + "\n";
      Associative(slot + "spmmat = {'" + spmMat, "'};", "\n");
    }
    assert ws[1..] == [residuals, method_];
    assert Concat(ws) == ws[0] + Concat([residuals, method_]);
    assert [residuals, method_][1..] == [method_];
    ConcatSingle(method_);
    assert Concat([residuals, method_]) == residuals + method_;
  }

  /** `create_mfile_contrast` in batch slot `slot`: one t-contrast on `spmMat`. */
  function ContrastWrites(slot: string, spmMat: string, name: string, weights: string): seq<string> {
    [ slot + "spmmat = {'" + spmMat + "'};\n",
      slot + "consess{1}.tcon.name = '" + name + "';\n",
      slot + "consess{1}.tcon.weights =" + weights + ";\n",
      slot + "consess{1}.tcon.sessrep = 'none';\n",
      slot + "delete = 0;\n" ]
  }

  /** The contrast job is five whole lines: the model reference, the
      contrast's name and weights as given, no session replication, and
      no deletion of existing contrasts. */
  lemma ContrastDocLines(slot: string, spmMat: string, name: string, weights: string)
    requires Free(slot, '\n') && Free(spmMat, '\n') && Free(name, '\n') && Free(weights, '\n')
    ensures SplitLines(Concat(ContrastWrites(slot, spmMat, name, weights)))
         == [ slot + "spmmat = {'" + spmMat + "'};",
              slot + "consess{1}.tcon.name = '" + name + "';",
              slot + "consess{1}.tcon.weights =" + weights + ";",
              slot + "consess{1}.tcon.sessrep = 'none';",
              slot + "delete = 0;",
              "" ]
  {
    var ls := ContrastLines(slot, spmMat, name, weights);
    ContrastLinesFree(slot, spmMat, name, weights);
    ContrastText(slot, spmMat, name, weights);
    SplitLinesUnlines(ls, "");
    assert Unlines(ls) + "" == Unlines(ls);
    assert SplitLines("") == [""];
  }

  /** The five lines of a contrast job, without their newlines. */
  function ContrastLines(slot: string, spmMat: string, name: string, weights: string): seq<string> {
    [ slot + "spmmat = {'" + spmMat + "'};",
      slot + "consess{1}.tcon.name = '" + name + "';",
      slot + "consess{1}.tcon.weights =" + weights + ";",
      slot + "consess{1}.tcon.sessrep = 'none';",
      slot + "delete = 0;" ]
  }

  lemma ContrastLinesFree(slot: string, spmMat: string, name: string, weights: string)
    requires Free(slot, '\n') && Free(spmMat, '\n') && Free(name, '\n') && Free(weights, '\n')
    ensures AllFree(ContrastLines(slot, spmMat, name, weights), '\n')
  {
    DirectiveFree(slot, "spmmat = {'", spmMat, "'};");
    DirectiveFree(slot, "consess{1}.tcon.name = '", name, "';");
    DirectiveFree(slot, "consess{1}.tcon.weights =", weights, ";");
    FreeConcat(slot, "consess{1}.tcon.sessrep = 'none';", '\n');
    FreeConcat(slot, "delete = 0;", '\n');
  }

  /** Every write of the contrast job is one whole line. */
  lemma ContrastText(slot: string, spmMat: string, name: string, weights: string)
    ensures Concat(ContrastWrites(slot, spmMat, name, weights)) == Unlines(ContrastLines(slot, spmMat, name, weights))
  {
    var ls := ContrastLines(slot, spmMat, name, weights);
    var ws := ContrastWrites(slot, spmMat, name, weights);
    assert ws[0] == ls[0] + "\n" by {
      assert "'};\n" == "'};" + "\n";
      Associative(slot + "spmmat = {'" + spmMat, "'};", "\n");
    }
    assert ws[1] == ls[1] + "\n" by {
      assert "';\n" == "';" + "\n";
      Associative(slot + "consess{1}.tcon.name = '" + name, "';", "\n");
    }
    assert ws[2] == ls[2] + "\n" by {
      assert ";\n" == ";" + "\n";
      Associative(slot + "consess{1}.tcon.weights =" + weights, ";", "\n");
    }
    assert ws[3] == ls[3] + "\n" by {
      assert "consess{1}.tcon.sessrep = 'none';\n" == "consess{1}.tcon.sessrep = 'none';" + "\n";
      Associative(slot, "consess{1}.tcon.sessrep = 'none';", "\n");
    }
    assert ws[4] == ls[4] + "\n" by {
      assert "delete = 0;\n" == "delete = 0;" + "\n";
      Associative(slot, "delete = 0;", "\n");
    }
    assert ws == LineWrites(ls);
    ConcatLineWrites(ls);
  }

  /** Slot {1} of `run_cat12_new_model`: the CAT12 two-sample design with
      Age as the covariate and TIV as the global ANCOVA values, both listed
      group 1 then group 2. */
  function Cat12DesignWrites(spmPath: string, saveDir: string, g: GroupDesign, mask: string): seq<string> {
    Cat12ScansWrites(spmPath, saveDir, g.group1, g.group2)
    + Cat12CovariatesWrites(g.ages1, g.ages2, g.tiv1, g.tiv2, mask)
  }

  /** The path set-up, the output directory and the two groups' scans. */
  function Cat12ScansWrites(spmPath: string, saveDir: string, group1: seq<string>, group2: seq<string>): seq<string> {
    var d := CatFactorialDesign;
    [ "addpath('" + spmPath + "');\n",
      d + "dir = {'" + saveDir + "/'};" + "\n" +
      "%%" + "\n" +
      d + "des.t2.scans1 = {" + "\n" ]
    + ListWrites(group1, Frame, "};" + "\n" + "%%" + "\n")
    + [ d + "des.t2.scans2 = {" + "\n" ]
    + ListWrites(group2, Frame, "};" + "\n")
  }

  /** The design flags, the Age covariate, the masking and the TIV values
      for the global ANCOVA, then the checks. */
  function Cat12CovariatesWrites(ages1: seq<string>, ages2: seq<string>, tiv1: seq<string>, tiv2: seq<string>,
                                 mask: string): seq<string>
  {
    var d := CatFactorialDesign;
    [ d + "des.t2.dept = 0;\n" +
      d + "des.t2.variance = 1;\n" +
      d + "des.t2.gmsca = 0;\n" +
      d + "des.t2.ancova = 0;\n" ]
    + ColumnWrites(d + "cov.c = [", ages1, ages2, "];\n")
    + [ d + "cov.cname = 'Age';" + "\n" +
        d + "cov.iCFI = 1;" + "\n" +
        d + "cov.iCC = 5;" + "\n",
        d + "multi_cov = struct('files', {}, 'iCFI', {}, 'iCC', {});\n",
        d + "masking.tm.tm_none = 1;\n" +
        d + "masking.im = 1;\n",
        d + "masking.em = {'" + mask + "'}\n;" ]
    + ColumnWrites(d + "globals.g_ancova.global_uval = [", tiv1, tiv2, "];\n")
    + [ d + "check_SPM.check_SPM_zscore.do_check_zscore.use_unsmoothed_data = 1;\n" +
        d + "check_SPM_zscore.do_check_zscore.adjust_data = 1;\n" +
        d + "check_SPM.check_SPM_ortho = 1;\n" ]
  }

  /** The whole `cat_12_vbm.m` job: the design in slot {1}, then the
      estimation in slot {2} and the `Atrophy` contrast `[1 -1 0 0]` in
      slot {3}, both on `spmMat`. */
  function Cat12ModelWrites(spmPath: string, saveDir: string, g: GroupDesign, mask: string, spmMat: string): seq<string> {
    Cat12DesignWrites(spmPath, saveDir, g, mask)
    + EstimateWrites(Estimate2, spmMat)
    + ContrastWrites(Contrast3, spmMat, "Atrophy", "[1 -1 0 0]")
  }

  /** The combined CAT12 job: after the lines of the slot-{1} design come
      the slot-{2} model reference; one line in which the residual and
      method directives and the slot-{3} model reference run together (the
      estimation writes no newline after its last two directives); then the
      `Atrophy` contrast's name, weights, session and deletion lines; then
      the empty remainder after the final newline. */
  lemma Cat12ModelLines(spmPath: string, saveDir: string, g: GroupDesign, mask: string, spmMat: string)
    requires Free(spmMat, '\n')
    ensures var design := Concat(Cat12DesignWrites(spmPath, saveDir, g, mask));
      var e := Estimate2;
      var c := Contrast3;
      |design| > 0 && design[|design| - 1] == '\n' &&
      SplitLines(Concat(Cat12ModelWrites(spmPath, saveDir, g, mask, spmMat)))
      == SplitLines(design[..|design| - 1])
         + [ e + "spmmat = {'" + spmMat + "'};",
             (e + "write_residuals = 0;" + e + "method.Classical = 1;") + (c + "spmmat = {'" + spmMat + "'};"),
             c + "consess{1}.tcon.name = '" + "Atrophy" + "';",
             c + "consess{1}.tcon.weights =" + "[1 -1 0 0]" + ";",
             c + "consess{1}.tcon.sessrep = 'none';",
             c + "delete = 0;",
             "" ]
  {
    var designWrites := Cat12DesignWrites(spmPath, saveDir, g, mask);
    Cat12DesignEndsLine(spmPath, saveDir, g, mask);
    assert Cat12ModelWrites(spmPath, saveDir, g, mask, spmMat)
        == designWrites + EstimateWrites(Estimate2, spmMat) + ContrastWrites(Contrast3, spmMat, "Atrophy", "[1 -1 0 0]");
    SlotsAfterDesign(designWrites, spmMat);
  }

  /** Whatever design precedes them, provided it ends its last line, the
      estimation and contrast slots read back as in `Cat12ModelLines`. */
  lemma SlotsAfterDesign(designWrites: seq<string>, spmMat: string)
    requires Free(spmMat, '\n')
    requires var t := Concat(designWrites); |t| > 0 && t[|t| - 1] == '\n'
    ensures var design := Concat(designWrites);
      var e := Estimate2;
      var c := Contrast3;
      SplitLines(Concat(designWrites + EstimateWrites(e, spmMat) + ContrastWrites(c, spmMat, "Atrophy", "[1 -1 0 0]")))
      == SplitLines(design[..|design| - 1])
         + [ e + "spmmat = {'" + spmMat + "'};",
             (e + "write_residuals = 0;" + e + "method.Classical = 1;") + (c + "spmmat = {'" + spmMat + "'};"),
             c + "consess{1}.tcon.name = '" + "Atrophy" + "';",
             c + "consess{1}.tcon.weights =" + "[1 -1 0 0]" + ";",
             c + "consess{1}.tcon.sessrep = 'none';",
             c + "delete = 0;",
             "" ]
  {
    var e := Estimate2;
    var c := Contrast3;
    var estimate := EstimateWrites(e, spmMat);
    var contrast := ContrastWrites(c, spmMat, "Atrophy", "[1 -1 0 0]");
    var design := Concat(designWrites);
    var q := design[..|design| - 1];
    assert design == q + "\n";
    var first := e + "spmmat = {'" + spmMat + "'};";
    var joined := e + "write_residuals = 0;" + e + "method.Classical = 1;";
    var cs := ContrastLines(c, spmMat, "Atrophy", "[1 -1 0 0]");
    var tail := [first, joined + cs[0]] + cs[1..];
    assert Concat(estimate) + Concat(contrast) == Unlines(tail) by {
      EstimateText(e, spmMat);
      ContrastText(c, spmMat, "Atrophy", "[1 -1 0 0]");
      EstimateThenContrast(first, joined, cs);
    }
    ConcatAppend(designWrites + estimate, contrast);
    ConcatAppend(designWrites, estimate);
    Associative(design, Concat(estimate), Concat(contrast));
    Associative(q, "\n", Unlines(tail));
    SplitLinesAround(q, Unlines(tail));
    Cat12TailFree(spmMat);
    SplitLinesUnlines(tail, "");
    assert Unlines(tail) + "" == Unlines(tail);
    assert SplitLines("") == [""];
    FiveLinesAfterTwo(first, joined, cs);
  }

  lemma FiveLinesAfterTwo(first: string, partial: string, cs: seq<string>)
    requires |cs| == 5
    ensures [first, partial + cs[0]] + cs[1..] + [""] == [first, partial + cs[0], cs[1], cs[2], cs[3], cs[4], ""]
  {
  }

  /** None of the lines after the CAT12 design holds a line break. */
  lemma Cat12TailFree(spmMat: string)
    requires Free(spmMat, '\n')
    ensures var e := Estimate2;
      var cs := ContrastLines(Contrast3, spmMat, "Atrophy", "[1 -1 0 0]");
      AllFree([e + "spmmat = {'" + spmMat + "'};",
               e + "write_residuals = 0;" + e + "method.Classical = 1;" + cs[0]] + cs[1..], '\n')
  {
    var e := Estimate2;
    var cs := ContrastLines(Contrast3, spmMat, "Atrophy", "[1 -1 0 0]");
    SlotsSingleLine();
    ContrastLinesFree(Contrast3, spmMat, "Atrophy", "[1 -1 0 0]");
    DirectiveFree(e, "spmmat = {'", spmMat, "'};");
    FreeConcat(e, "write_residuals = 0;", '\n');
    FreeConcat(e, "method.Classical = 1;", '\n');
    FreeConcat(e + "write_residuals = 0;", e + "method.Classical = 1;", '\n');
    assert e + "write_residuals = 0;" + (e + "method.Classical = 1;") == e + "write_residuals = 0;" + e + "method.Classical = 1;";
    assert Free(cs[0], '\n');
    FreeConcat(e + "write_residuals = 0;" + e + "method.Classical = 1;", cs[0], '\n');
    AllFreeTail(cs, '\n');
    var tail := [e + "spmmat = {'" + spmMat + "'};", e + "write_residuals = 0;" + e + "method.Classical = 1;" + cs[0]];
    AllFreeConcat(tail, cs[1..], '\n');
  }

  lemma SlotsSingleLine()
    ensures Free(Estimate2, '\n') && Free(Contrast3, '\n')
  {
  }

  /** Text ending in a partial line, followed by whole lines: the partial
      line and the first whole line join into one. */
  lemma EstimateThenContrast(first: string, partial: string, ls: seq<string>)
    requires ls != []
    ensures first + "\n" + partial + Unlines(ls) == Unlines([first, partial + ls[0]] + ls[1..])
  {
    var u := Unlines(ls[1..]);
    assert ([first, partial + ls[0]] + ls[1..])[1..] == [partial + ls[0]] + ls[1..];
    assert ([partial + ls[0]] + ls[1..])[1..] == ls[1..];
    JoinPartialLine(first, partial, ls[0], u);
  }

  lemma JoinPartialLine(first: string, partial: string, line: string, u: string)
    ensures first + "\n" + partial + (line + "\n" + u) == first + "\n" + ((partial + line) + "\n" + u)
  {
  }

  /** The CAT12 design ends with a newline: its last write, the checks,
      closes its last line. */
  lemma Cat12DesignEndsLine(spmPath: string, saveDir: string, g: GroupDesign, mask: string)
    ensures var t := Concat(Cat12DesignWrites(spmPath, saveDir, g, mask));
      |t| > 0 && t[|t| - 1] == '\n'
  {
    var w := Cat12DesignWrites(spmPath, saveDir, g, mask);
    var n := |w|;
    assert w == w[..n - 1] + [w[n - 1]];
    ConcatAppend(w[..n - 1], [w[n - 1]]);
    ConcatSingle(w[n - 1]);
  }

  /** Options of `cat12seg_imgs`; toggles are integers, fractional values
      are kept as the text Python's `str()` gives them, and an empty
      `ownAtlas` stands for `atlas_custom=False`. */
  datatype Cat12Options = Cat12Options(
    nproc: int, biasAcc: string, app: int, kamap: int, lasStr: string, gcutStr: int, wmhc: int,
    regStr: string, voxSize: string, restypesOptimal: string,
    surface: int, surfMeasures: int,
    neuromorphometrics: int, lpba40: int, cobra: int, hammers: int, ownAtlas: string,
    gmNative: int, gmMod: int, gmDartel: int,
    wmNative: int, wmMod: int, wmDartel: int,
    csfNative: int, csfMod: int, csfWarped: int, csfDartel: int,
    ctNative: int, ctWarped: int, ctDartel: int,
    ppNative: int, ppWarped: int, ppDartel: int,
    wmhNative: int, wmhMod: int, wmhWarped: int, wmhDartel: int,
    slNative: int, slMod: int, slWarped: int, slDartel: int,
    tpmcNative: int, tpmcMod: int, tpmcWarped: int, tpmcDartel: int,
    atlasNative: int, labelNative: int, labelWarped: int, labelDartel: int, biasWarped: int,
    lasNative: int, lasWarped: int, lasDartel: int, jacobianWarped: int, warps: string)

  const DefaultCat12Options: Cat12Options := Cat12Options(
    4, "0.5", 1070, 0, "0.5", 2, 1,
    "0.5", "1.5", "[1 0.1]",
    0, 0,
    0, 0, 0, 0, "",
    0, 1, 0,
    0, 1, 0,
    0, 1, 0, 0,
    0, 0, 0,
    0, 0, 0,
    0, 0, 0, 0,
    0, 0, 0, 0,
    0, 0, 0, 0,
    0, 1, 0, 0, 1,
    0, 0, 0, 0, "[1 0]")

  /** The data list of `cat12seg_imgs`: `data = {`, one line per image, `};`. */
  function Cat12DataWrites(images: seq<string>): seq<string> {
    [ CatEstwrite + "data = {\n" ] + ListWrites(images, Frame, "};" + "\n")
  }

  /** The segmentation options: prior, cores, tissue probability map,
      affine regularisation, bias accuracy. `useprior` is written twice. */
  function Cat12OptionsWrites(tpm: string, o: Cat12Options): seq<string> {
    var d := CatEstwrite;
    [ d + "data_wmh = {''};" + "\n",
      d + "nproc = " + IntToString(o.nproc) + ";\n",
      d + "useprior = '';" + "\n",
      d + "opts.tpm = {'" + tpm + "'};\n",
      d + "useprior = '';" + "\n",
      d + "opts.affreg = 'mni';" + "\n",
      d + "opts.biasacc = " + o.biasAcc + ";\n" ]
  }

  /** The extended options: preprocessing, shooting registration onto
      `volumes`, output resolution. */
  function Cat12ExtoptsWrites(volumes: string, o: Cat12Options): seq<string> {
    var d := CatEstwrite;
    [ d + "extopts.APP = " + IntToString(o.app) + ";\n",
      d + "extopts.spm_kamap = " + IntToString(o.kamap) + ";\n",
      d + "extopts.LASstr = " + o.lasStr + ";\n",
      d + "extopts.gcutstr = " + IntToString(o.gcutStr) + ";\n",
      d + "extopts.WMHC = " + IntToString(o.wmhc) + ";\n",
      d + "extopts.registration.shooting.shootingtpm = {'" + volumes + "'};\n",
      d + "extopts.registration.shooting.regstr = " + o.regStr + ";\n",
      d + "extopts.vox = " + o.voxSize + ";\n",
      d + "extopts.restypes.optimal = " + o.restypesOptimal + ";\n",
      d + "extopts.ignoreErrors = 1;\n" ]
  }

  /** The atlas line: `{''}` when no own atlas is given, the atlas otherwise. */
  function OwnAtlasDirective(ownAtlas: string): (line: string)
    ensures ownAtlas == [] <==> line == CatOutput + "ROImenu.atlases.ownatlas = {''};\n"
    ensures ownAtlas != [] ==> line == CatOutput + "ROImenu.atlases.ownatlas = {'" + ownAtlas + "'};\n"
  {
    if ownAtlas == [] then CatOutput + "ROImenu.atlases.ownatlas = {''};\n"
    else
      assert |CatOutput + "ROImenu.atlases.ownatlas = {'" + ownAtlas + "'};\n"|
          != |CatOutput + "ROImenu.atlases.ownatlas = {''};\n"|;
      CatOutput + "ROImenu.atlases.ownatlas = {'" + ownAtlas + "'};\n"
  }

  /** The surface switches and the ROI atlases. */
  function Cat12AtlasesWrites(o: Cat12Options): seq<string> {
    var d := CatOutput;
    [ d + "surface = " + IntToString(o.surface) + ";\n",
      d + "surf_measures = " + IntToString(o.surfMeasures) + ";\n",
      d + "ROImenu.atlases.neuromorphometrics = " + IntToString(o.neuromorphometrics) + ";\n",
      d + "ROImenu.atlases.lpba40 = " + IntToString(o.lpba40) + ";\n",
      d + "ROImenu.atlases.cobra = " + IntToString(o.cobra) + ";\n",
      d + "ROImenu.atlases.hammers = " + IntToString(o.hammers) + ";\n",
      OwnAtlasDirective(o.ownAtlas) ]
  }

  /** The grey-matter, white-matter and CSF maps. */
  function Cat12TissuesWrites(o: Cat12Options): seq<string> {
    var d := CatOutput;
    [ d + "GM.native = " + IntToString(o.gmNative) + ";\n",
      d + "GM.mod = " + IntToString(o.gmMod) + ";\n",
      d + "GM.dartel = " + IntToString(o.gmDartel) + ";\n",
      d + "WM.native = " + IntToString(o.wmNative) + ";\n",
      d + "WM.mod = " + IntToString(o.wmMod) + ";\n",
      d + "WM.dartel = " + IntToString(o.wmDartel) + ";\n",
      d + "CSF.native = " + IntToString(o.csfNative) + ";\n",
      d + "CSF.warped = " + IntToString(o.csfWarped) + ";\n",
      d + "CSF.mod = " + IntToString(o.csfMod) + ";\n",
      d + "CSF.dartel = " + IntToString(o.csfDartel) + ";\n" ]
  }

  /** The cortical-thickness and position maps. */
  function Cat12CortexWrites(o: Cat12Options): seq<string> {
    var d := CatOutput;
    [ d + "ct.native = " + IntToString(o.ctNative) + ";\n",
      d + "ct.warped = " + IntToString(o.ctWarped) + ";\n",
      d + "ct.dartel = " + IntToString(o.ctDartel) + ";\n",
      d + "pp.native = " + IntToString(o.ppNative) + ";\n",
      d + "pp.warped = " + IntToString(o.ppWarped) + ";\n",
      d + "pp.dartel = " + IntToString(o.ppDartel) + ";\n" ]
  }

  /** The white-matter-hyperintensity and lesion maps. */
  function Cat12LesionsWrites(o: Cat12Options): seq<string> {
    var d := CatOutput;
    [ d + "WMH.native = " + IntToString(o.wmhNative) + ";\n",
      d + "WMH.warped = " + IntToString(o.wmhWarped) + ";\n",
      d + "WMH.mod = " + IntToString(o.wmhMod) + ";\n",
      d + "WMH.dartel = " + IntToString(o.wmhDartel) + ";\n",
      d + "SL.native = " + IntToString(o.slNative) + ";\n",
      d + "SL.warped = " + IntToString(o.slWarped) + ";\n",
      d + "SL.mod = " + IntToString(o.slMod) + ";\n",
      d + "SL.dartel = " + IntToString(o.slDartel) + ";\n" ]
  }

  /** The tissue-class, atlas and label maps. `labels_native` is written
      twice, as `label.native` and `labelnative`. */
  function Cat12LabelsWrites(o: Cat12Options): seq<string> {
    var d := CatOutput;
    [ d + "TPMC.native = " + IntToString(o.tpmcNative) + ";\n",
      d + "TPMC.warped = " + IntToString(o.tpmcWarped) + ";\n",
      d + "TPMC.mod = " + IntToString(o.tpmcMod) + ";\n",
      d + "TPMC.dartel = " + IntToString(o.tpmcDartel) + ";\n",
      d + "atlas.native = " + IntToString(o.atlasNative) + ";\n",
      d + "label.native = " + IntToString(o.labelNative) + ";\n",
      d + "label.warped = " + IntToString(o.labelWarped) + ";\n",
      d + "label.dartel = " + IntToString(o.labelDartel) + ";\n",
      d + "labelnative = " + IntToString(o.labelNative) + ";\n" ]
  }

  /** The bias, local-adaptive-segmentation, Jacobian and deformation-field
      outputs. */
  function Cat12DeformationsWrites(o: Cat12Options): seq<string> {
    var d := CatOutput;
    [ d + "bias.warped = " + IntToString(o.biasWarped) + ";\n",
      d + "las.native = " + IntToString(o.lasNative) + ";\n",
      d + "las.warped = " + IntToString(o.lasWarped) + ";\n",
      d + "las.dartel = " + IntToString(o.lasDartel) + ";\n",
      d + "jacobianwarped = " + IntToString(o.jacobianWarped) + ";\n",
      d + "warps = " + o.warps + ";\n" ]
  }

  /** Every setting `cat12seg_imgs` writes after its data list, section by section. */
  function Cat12SettingsWrites(tpm: string, volumes: string, o: Cat12Options): seq<string> {
    Cat12OptionsWrites(tpm, o) + Cat12ExtoptsWrites(volumes, o)
    + Cat12AtlasesWrites(o) + Cat12TissuesWrites(o) + Cat12CortexWrites(o)
    + Cat12LesionsWrites(o) + Cat12LabelsWrites(o) + Cat12DeformationsWrites(o)
  }

  /** `cat12seg_imgs`: CAT12 segmentation of every image. */
  function Cat12SegWrites(images: seq<string>, tpm: string, volumes: string, o: Cat12Options): seq<string> {
    Cat12DataWrites(images) + Cat12SettingsWrites(tpm, volumes, o)
  }

  /** The segmentation job opens with the data list: `data = {`, one line
      per image in order, `};`. */
  lemma Cat12SegDataLines(images: seq<string>, tpm: string, volumes: string, o: Cat12Options)
    requires AllFree(images, '\n')
    ensures var ls := SplitLines(Concat(Cat12SegWrites(images, tpm, volumes, o)));
      |ls| > |images| + 2 &&
      ls[..|images| + 2] == [CatEstwrite + "data = {"] + ListLines(images, Frame) + ["};"]
  {
    Cat12DataFirst(images, Cat12SettingsWrites(tpm, volumes, o));
  }

  /** Whatever is written after it, the data list reads back first. */
  lemma Cat12DataFirst(images: seq<string>, rest: seq<string>)
    requires AllFree(images, '\n')
    ensures var ls := SplitLines(Concat(Cat12DataWrites(images) + rest));
      |ls| > |images| + 2 &&
      ls[..|images| + 2] == [CatEstwrite + "data = {"] + ListLines(images, Frame) + ["};"]
  {
    var opener := CatEstwrite + "data = {";
    PrefixesSingleLine();
    FreeConcat(CatEstwrite, "data = {", '\n');
    OpenedListText(opener, images, Frame);
    assert CatEstwrite + "data = {\n" == opener + "\n" by {
      assert "data = {\n" == "data = {" + "\n";
      Associative(CatEstwrite, "data = {", "\n");
    }
    assert Cat12DataWrites(images) == [opener + "\n"] + ListWrites(images, Frame, "};" + "\n");
    WrittenLinesFirst(Cat12DataWrites(images), rest, [opener] + ListLines(images, Frame) + ["};"]);
  }
}
