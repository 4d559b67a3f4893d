/** `Shader.h`: splitting a combined render-shader file into its vertex and fragment sections, choosing
    between the compute and the render path from the file name, and the failure-to-0 rules of program
    creation. Files, and the driver's compile and link steps, are parameters. */
module Shaders {
  import opened Wrappers

  /** The files the loader can open: a path maps to the file's text, or to `None` when it cannot be opened. */
  type FileSystem = string -> Option<string>

  /** The section `parseShader` is currently copying into (`ShaderType`, values -1, 0, 1, 2). */
  datatype ShaderType = NoType | Vertex | Fragment | Compute

  /** The enum's integer value, which `parseShader` uses as the index of its output stream. */
  function Slot(t: ShaderType): int {
    match t
    case NoType => -1
    case Vertex => 0
    case Fragment => 1
    case Compute => 2
  }

  datatype ShaderSource = ShaderSource(vertexShader: string, fragmentShader: string, computeShader: string)

  /** Pipeline stages passed to the driver's compiler. */
  datatype Stage = VertexStage | FragmentStage | ComputeStage

  /** What the graphics driver answers: the shader id a compilation yields (0 on failure), the name
      `glCreateProgram` hands out, and whether linking a program with the given shaders succeeds. */
  datatype Gl = Gl(compile: (Stage, string) -> nat, newProgram: nat, links: (nat, seq<nat>) -> bool)

  /** `s.find(pattern) != std::string::npos`. */
  predicate Contains(s: string, pattern: string)
    decreases |s|
  {
    |pattern| <= |s| && (s[..|pattern|] == pattern || Contains(s[1..], pattern))
  }

  /** `pattern` occurs in `s` starting at index `i`. */
  predicate OccursAt(s: string, pattern: string, i: nat) {
    i + |pattern| <= |s| && s[i..i + |pattern|] == pattern
  }

  /** `Contains` is substring search: it holds exactly when the pattern occurs at some index. */
  lemma {:induction false} ContainsOccurrence(s: string, pattern: string)
    ensures Contains(s, pattern) <==> exists i :: OccursAt(s, pattern, i)
    decreases |s|
  {
    if |pattern| <= |s| {
      if s[..|pattern|] == pattern {
        assert OccursAt(s, pattern, 0);
      } else {
        ContainsOccurrence(s[1..], pattern);
        if Contains(s[1..], pattern) {
          var i: nat :| OccursAt(s[1..], pattern, i);
          assert s[1..][i..i + |pattern|] == s[i + 1..i + 1 + |pattern|];
          assert OccursAt(s, pattern, i + 1);
        }
        if i: nat :| OccursAt(s, pattern, i) {
          assert i != 0;
          assert s[1..][i - 1..i - 1 + |pattern|] == s[i..i + |pattern|];
          assert OccursAt(s[1..], pattern, i - 1);
        }
      }
    }
  }

  /** A line that starts a new section (it mentions `#shader` anywhere). */
  predicate IsHeader(line: string) {
    Contains(line, "#shader")
  }

  /** A header that names a section: it mentions `vertex` or `fragment`. */
  predicate Selects(line: string) {
    IsHeader(line) && (Contains(line, "vertex") || Contains(line, "fragment"))
  }

  /** The section a selecting header switches to; `vertex` wins when both keywords occur. */
  function SelectedType(line: string): (t: ShaderType)
    ensures t == Vertex || t == Fragment
    ensures t == Vertex <==> Contains(line, "vertex")
  {
    if Contains(line, "vertex") then Vertex else Fragment
  }

  /** How reading one line changes the current section. */
  function NextType(line: string, t: ShaderType): (next: ShaderType)
    ensures !IsHeader(line) ==> next == t
    ensures Selects(line) ==> next == SelectedType(line)
    ensures IsHeader(line) && !Selects(line) ==> next == t
  {
    if IsHeader(line) then
      if Contains(line, "vertex") then Vertex
      else if Contains(line, "fragment") then Fragment
      else t
    else t
  }

  /** The section in effect after reading `lines`, starting from `NoType`. */
  function StateAfter(lines: seq<string>): ShaderType {
    if lines == [] then NoType
    else NextType(lines[|lines| - 1], StateAfter(lines[..|lines| - 1]))
  }

  /** The lines of `lines` that are copied into the output section `target`, in file order: a line is copied
      when it is not a header and the section in effect when it is read is `target`. */
  function RoutedLines(lines: seq<string>, target: ShaderType): seq<string>
    requires target == Vertex || target == Fragment
  {
    if lines == [] then []
    else
      var prior, line := lines[..|lines| - 1], lines[|lines| - 1];
      RoutedLines(prior, target) + (if !IsHeader(line) && StateAfter(prior) == target then [line] else [])
  }

  /** A stringstream fed `line << '\n'` for each line, in order. */
  function JoinLines(lines: seq<string>): string {
    if lines == [] then "" else lines[0] + "\n" + JoinLines(lines[1..])
  }

  /** Index of the first `'\n'` of `s`, or `|s|` if there is none. */
  function NewlineIndex(s: string): (k: nat)
    ensures k <= |s|
    ensures k < |s| ==> s[k] == '\n'
    ensures forall j :: 0 <= j < k ==> s[j] != '\n'
  {
    if s == [] || s[0] == '\n' then 0 else 1 + NewlineIndex(s[1..])
  }

  /** The lines `std::getline` yields from `text`: split at each `'\n'`, which is dropped; a last line
      without a terminating `'\n'` is still yielded. */
  function SplitLines(text: string): (lines: seq<string>)
    ensures forall k :: 0 <= k < |lines| ==> '\n' !in lines[k]
    decreases |text|
  {
    if text == [] then []
    else
      var k := NewlineIndex(text);
      if k == |text| then [text] else [text[..k]] + SplitLines(text[k + 1..])
  }

  /** The three sections `parseShader(filepath)` returns. */
  function ParsedSource(files: FileSystem, filepath: string): ShaderSource {
    match files(filepath)
    case None => ShaderSource("", "", "")
    case Some(text) =>
      var lines := SplitLines(text);
      ShaderSource(JoinLines(RoutedLines(lines, Vertex)), JoinLines(RoutedLines(lines, Fragment)), "")
  }

  /** `parseShader`: route each line of the file to the vertex or fragment stream, or drop it. */
  method ParseShader(files: FileSystem, filepath: string) returns (src: ShaderSource)
    ensures files(filepath).None? ==> src == ShaderSource("", "", "")
    ensures src.computeShader == ""
    ensures src == ParsedSource(files, filepath)
  {
    if files(filepath).None? {
      return ShaderSource("", "", "");
    }
    var lines := SplitLines(files(filepath).value);
    var ss := new string[2](_ => "");
    var shaderType := NoType;
    var i := 0;
    while i < |lines|
      invariant 0 <= i <= |lines|
      invariant shaderType == StateAfter(lines[..i])
      invariant ss[0] == JoinLines(RoutedLines(lines[..i], Vertex))
      invariant ss[1] == JoinLines(RoutedLines(lines[..i], Fragment))
    {
      var line := lines[i];
      ReadOneMoreLine(lines, i, Vertex);
      ReadOneMoreLine(lines, i, Fragment);
      if IsHeader(line) {
        if Contains(line, "vertex") {
          shaderType := Vertex;
        } else if Contains(line, "fragment") {
          shaderType := Fragment;
        }
      } else if shaderType != NoType && Slot(shaderType) < 2 {
        var slot := Slot(shaderType);
        JoinLinesAppend(RoutedLines(lines[..i], shaderType), line);
        ss[slot] := ss[slot] + line + "\n";
      }
      assert ss[0] == JoinLines(RoutedLines(lines[..i + 1], Vertex));
      i := i + 1;
    }
    assert lines[..i] == lines;
    src := ShaderSource(ss[0], ss[1], "");
  }

  /** Reading line `i` advances the section by `NextType` and routes that line alone. */
  lemma ReadOneMoreLine(lines: seq<string>, i: nat, t: ShaderType)
    requires i < |lines| && (t == Vertex || t == Fragment)
    ensures StateAfter(lines[..i + 1]) == NextType(lines[i], StateAfter(lines[..i]))
    ensures !IsHeader(lines[i]) && StateAfter(lines[..i]) == t ==>
      RoutedLines(lines[..i + 1], t) == RoutedLines(lines[..i], t) + [lines[i]]
    ensures IsHeader(lines[i]) || StateAfter(lines[..i]) != t ==>
      RoutedLines(lines[..i + 1], t) == RoutedLines(lines[..i], t)
  {
    assert lines[..i + 1][..i] == lines[..i];
  }

  /** Appending one line to a stream adds exactly that line and one `'\n'` at its end. */
  lemma {:induction false} JoinLinesAppend(lines: seq<string>, line: string)
    ensures JoinLines(lines + [line]) == JoinLines(lines) + line + "\n"
  {
    if lines == [] {
      assert [] + [line] == [line];
    } else {
      assert (lines + [line])[1..] == lines[1..] + [line];
      JoinLinesAppend(lines[1..], line);
    }
  }

  /** Each section is its routed lines, each followed by exactly one `'\n'`: splitting the section at its
      newlines gives the routed lines back (lines read by `getline` hold no `'\n'`). */
  lemma {:induction false} SplitJoinRoundTrip(lines: seq<string>)
    requires forall k :: 0 <= k < |lines| ==> '\n' !in lines[k]
    ensures SplitLines(JoinLines(lines)) == lines
  {
    if lines != [] {
      var text := JoinLines(lines);
      var first := lines[0];
      assert text == first + "\n" + JoinLines(lines[1..]);
      var k := NewlineIndex(text);
      assert text[|first|] == '\n';
      assert k == |first|;
      assert text[..k] == first;
      assert text[k + 1..] == JoinLines(lines[1..]);
      SplitJoinRoundTrip(lines[1..]);
    }
  }

  /** Joining the lines `getline` yields gives the text back, with a `'\n'` added after an unterminated
      last line. */
  lemma {:induction false} JoinSplitRoundTrip(text: string)
    ensures JoinLines(SplitLines(text)) ==
      if text == [] || text[|text| - 1] == '\n' then text else text + "\n"
    decreases |text|
  {
    if text != [] {
      var k := NewlineIndex(text);
      if k < |text| {
        var rest := text[k + 1..];
        var lines := [text[..k]] + SplitLines(rest);
        assert SplitLines(text) == lines;
        assert lines[1..] == SplitLines(rest);
        assert JoinLines(lines) == text[..k] + "\n" + JoinLines(SplitLines(rest));
        JoinSplitRoundTrip(rest);
        assert text == text[..k] + "\n" + rest;
        if rest != [] {
          assert text[|text| - 1] == rest[|rest| - 1];
        }
      }
    }
  }

  /** The parsed sections split back into exactly the lines routed to them. */
  lemma SectionsAreRoutedLines(files: FileSystem, filepath: string)
    requires files(filepath).Some?
    ensures var lines, src := SplitLines(files(filepath).value), ParsedSource(files, filepath);
      SplitLines(src.vertexShader) == RoutedLines(lines, Vertex) &&
      SplitLines(src.fragmentShader) == RoutedLines(lines, Fragment)
  {
    var lines := SplitLines(files(filepath).value);
    RoutedLinesAreFileLines(lines, Vertex);
    RoutedLinesAreFileLines(lines, Fragment);
    SplitJoinRoundTrip(RoutedLines(lines, Vertex));
    SplitJoinRoundTrip(RoutedLines(lines, Fragment));
  }

  /** Every routed line is a line of the file, and never a header: a line containing `#shader` is never
      copied into either section. */
  lemma {:induction false} RoutedLinesAreFileLines(lines: seq<string>, target: ShaderType)
    requires target == Vertex || target == Fragment
    ensures forall k :: 0 <= k < |RoutedLines(lines, target)| ==>
      RoutedLines(lines, target)[k] in lines && !IsHeader(RoutedLines(lines, target)[k])
  {
    if lines != [] {
      var prior := lines[..|lines| - 1];
      RoutedLinesAreFileLines(prior, target);
      assert forall l :: l in prior ==> l in lines;
    }
  }

  /** Lines without a selecting header do not change the section in effect; in particular a `#shader`
      line that names neither keyword keeps the current section. */
  lemma {:induction false} SelectorFreeKeepsType(pre: seq<string>, mid: seq<string>)
    requires forall k :: 0 <= k < |mid| ==> !Selects(mid[k])
    ensures StateAfter(pre + mid) == StateAfter(pre)
  {
    if mid == [] {
      assert pre + mid == pre;
    } else {
      var init := mid[..|mid| - 1];
      assert (pre + mid)[..|pre + mid| - 1] == pre + init;
      assert (pre + mid)[|pre + mid| - 1] == mid[|mid| - 1];
      SelectorFreeKeepsType(pre, init);
    }
  }

  /** Lines read before the first header naming `vertex` or `fragment` are discarded: a selector-free
      preamble contributes nothing to either section, and everything after it is routed as if the file
      started there. */
  lemma {:induction false} PreambleDiscarded(pre: seq<string>, rest: seq<string>, target: ShaderType)
    requires target == Vertex || target == Fragment
    requires forall k :: 0 <= k < |pre| ==> !Selects(pre[k])
    ensures RoutedLines(pre, target) == []
    ensures RoutedLines(pre + rest, target) == RoutedLines(rest, target)
  {
    PreambleRoutesNothing(pre, target);
    if rest == [] {
      assert pre + rest == pre;
    } else {
      var init := rest[..|rest| - 1];
      assert (pre + rest)[..|pre + rest| - 1] == pre + init;
      assert (pre + rest)[|pre + rest| - 1] == rest[|rest| - 1];
      PreambleDiscarded(pre, init, target);
      PreambleKeepsType(pre, init);
    }
  }

  lemma {:induction false} PreambleRoutesNothing(pre: seq<string>, target: ShaderType)
    requires target == Vertex || target == Fragment
    requires forall k :: 0 <= k < |pre| ==> !Selects(pre[k])
    ensures RoutedLines(pre, target) == []
  {
    if pre != [] {
      var init := pre[..|pre| - 1];
      PreambleRoutesNothing(init, target);
      SelectorFreeKeepsType([], init);
      assert [] + init == init;
    }
  }

  /** After a selector-free preamble the parser is in the same section as at the start of a file. */
  lemma {:induction false} PreambleKeepsType(pre: seq<string>, rest: seq<string>)
    requires forall k :: 0 <= k < |pre| ==> !Selects(pre[k])
    ensures StateAfter(pre + rest) == StateAfter(rest)
  {
    if rest == [] {
      SelectorFreeKeepsType([], pre);
      assert [] + pre == pre && pre + rest == pre;
    } else {
      var init := rest[..|rest| - 1];
      assert (pre + rest)[..|pre + rest| - 1] == pre + init;
      assert (pre + rest)[|pre + rest| - 1] == rest[|rest| - 1];
      PreambleKeepsType(pre, init);
    }
  }

  /** After a header naming `vertex` (or, failing that, `fragment`), and until the next header that names
      one of them, every non-header line goes to that section and not to the other. */
  lemma RoutedAfterHeader(pre: seq<string>, header: string, mid: seq<string>, line: string)
    requires Selects(header)
    requires forall k :: 0 <= k < |mid| ==> !Selects(mid[k])
    requires !IsHeader(line)
    ensures var before, t := pre + [header] + mid, SelectedType(header);
      var other := if t == Vertex then Fragment else Vertex;
      RoutedLines(before + [line], t) == RoutedLines(before, t) + [line] &&
      RoutedLines(before + [line], other) == RoutedLines(before, other)
  {
    var before := pre + [header] + mid;
    SelectorFreeKeepsType(pre + [header], mid);
    assert (pre + [header])[..|pre + [header]| - 1] == pre;
    assert (before + [line])[..|before + [line]| - 1] == before;
  }

  // ----- Program creation -----

  /** `ReadFile`: the whole file, or the empty string when it cannot be opened; a missing file and an
      empty one read the same. */
  function ReadFile(files: FileSystem, filepath: string): (text: string)
    ensures files(filepath).Some? ==> text == files(filepath).value
    ensures text == "" <==> files(filepath) == None || files(filepath) == Some("")
  {
    match files(filepath)
    case None => ""
    case Some(text) => text
  }

  /** `CreateShader`: compile both stages, then link; any failure yields 0. */
  function CreateShader(gl: Gl, vertexShader: string, fragmentShader: string): (program: nat)
    ensures program == 0 || program == gl.newProgram
    ensures program != 0 <==>
      gl.newProgram != 0 &&
      gl.compile(VertexStage, vertexShader) != 0 && gl.compile(FragmentStage, fragmentShader) != 0 &&
      gl.links(gl.newProgram, [gl.compile(VertexStage, vertexShader), gl.compile(FragmentStage, fragmentShader)])
  {
    var program := gl.newProgram;
    var vs := gl.compile(VertexStage, vertexShader);
    var fs := gl.compile(FragmentStage, fragmentShader);
    if vs == 0 || fs == 0 then 0
    else if !gl.links(program, [vs, fs]) then 0
    else program
  }

  /** `CreateComputeProgram`: compile the compute stage, then link; any failure yields 0. */
  function CreateComputeProgram(gl: Gl, computeShaderSource: string): (program: nat)
    ensures program == 0 || program == gl.newProgram
    ensures program != 0 <==>
      gl.newProgram != 0 && gl.compile(ComputeStage, computeShaderSource) != 0 &&
      gl.links(gl.newProgram, [gl.compile(ComputeStage, computeShaderSource)])
  {
    var program := gl.newProgram;
    var cs := gl.compile(ComputeStage, computeShaderSource);
    if cs == 0 then 0
    else if !gl.links(program, [cs]) then 0
    else program
  }

  /** The constructor's test for a compute shader: longer than five characters and ending in `.comp`.
      A path that passes is a non-empty stem followed by `.comp`. */
  function IsComputePath(filepath: string): (b: bool)
    ensures b ==> |filepath| > 5 && filepath[..|filepath| - 5] != "" &&
                  filepath == filepath[..|filepath| - 5] + ".comp"
  {
    |filepath| > 5 && filepath[|filepath| - 5..] == ".comp"
  }

  /** A path takes the compute path exactly when it is a non-empty stem followed by `.comp`. */
  lemma ComputePathOfStem(stem: string)
    ensures IsComputePath(stem + ".comp") <==> stem != ""
  {
    var p := stem + ".comp";
    assert p[|p| - 5..] == ".comp";
  }

  /** The four simulation kernels are loaded on the compute path, the particle shader on the render path,
      and the bare name `.comp` on the render path. */
  lemma ShaderPathsOfTheProgram()
    ensures IsComputePath("assets/shaders/physics.comp")
    ensures IsComputePath("assets/shaders/density.comp")
    ensures IsComputePath("assets/shaders/grid_clear.comp")
    ensures IsComputePath("assets/shaders/grid_count.comp")
    ensures !IsComputePath("assets/shaders/Basic.shader")
    ensures !IsComputePath(".comp")
  {
    ComputePathOfStem("assets/shaders/physics");
    ComputePathOfStem("assets/shaders/density");
    ComputePathOfStem("assets/shaders/grid_clear");
    ComputePathOfStem("assets/shaders/grid_count");
    var b := "assets/shaders/Basic.shader";
    assert b[|b| - 5..][0] == 'h';
  }

  /** The program the `Shader` constructor ends up holding for `filepath`: a compute program built from
      the whole file on the compute path, a render program built from the two parsed sections otherwise;
      0 whenever a source is missing or compiling or linking fails. */
  function LoadedProgram(filepath: string, files: FileSystem, gl: Gl): (program: nat)
    ensures program == 0 || program == gl.newProgram
    ensures IsComputePath(filepath) && ReadFile(files, filepath) == "" ==> program == 0
    ensures !IsComputePath(filepath) && files(filepath).None? ==> program == 0
    ensures !IsComputePath(filepath) && ParsedSource(files, filepath).vertexShader == "" ==> program == 0
    ensures !IsComputePath(filepath) && ParsedSource(files, filepath).fragmentShader == "" ==> program == 0
    ensures program != 0 && IsComputePath(filepath) ==>
      gl.compile(ComputeStage, ReadFile(files, filepath)) != 0
    ensures program != 0 && !IsComputePath(filepath) ==>
      gl.compile(VertexStage, ParsedSource(files, filepath).vertexShader) != 0 &&
      gl.compile(FragmentStage, ParsedSource(files, filepath).fragmentShader) != 0
  {
    if IsComputePath(filepath) then
      (if ReadFile(files, filepath) == "" then 0 else CreateComputeProgram(gl, ReadFile(files, filepath)))
    else
      var src := ParsedSource(files, filepath);
      if src.vertexShader == "" || src.fragmentShader == "" then 0
      else CreateShader(gl, src.vertexShader, src.fragmentShader)
  }

  /** While the k-th of `paths` is loaded with the driver `gl(k)`, `glCreateProgram` never hands out the
      name of an earlier program that loaded and is therefore still alive. A program that failed was
      deleted, so its name may come back. */
  predicate LiveNamesFresh(paths: seq<string>, files: FileSystem, gl: nat -> Gl) {
    forall i, j :: 0 <= i < j < |paths| && LoadedProgram(paths[i], files, gl(i)) != 0 ==>
      gl(i).newProgram != gl(j).newProgram
  }

  /** No two programs in `programs` that loaded (are not 0) share a name. */
  predicate LoadedDistinct(programs: seq<nat>) {
    forall i, j :: 0 <= i < j < |programs| && programs[i] != 0 ==> programs[i] != programs[j]
  }

  /** Loading a sequence of shaders, the k-th with the driver `gl(k)`, gives every program that loads its
      own name whenever the driver never reuses the name of a live program. */
  lemma ProgramsFromFreshNames(paths: seq<string>, files: FileSystem, gl: nat -> Gl, programs: seq<nat>)
    requires |programs| == |paths| && LiveNamesFresh(paths, files, gl)
    requires forall k :: 0 <= k < |paths| ==> programs[k] == LoadedProgram(paths[k], files, gl(k))
    ensures LoadedDistinct(programs)
  {
    forall i, j | 0 <= i < j < |programs| && programs[i] != 0
      ensures programs[i] != programs[j]
    {
      assert programs[i] == gl(i).newProgram;
    }
  }

  /** A loaded GPU program. `shaderObj` stays 0 when loading fails. */
  class Shader {
    var shaderObj: nat

    constructor (filepath: string, files: FileSystem, gl: Gl)
      ensures shaderObj == LoadedProgram(filepath, files, gl)
    {
      var program := 0;
      if IsComputePath(filepath) {
        var computeSource := ReadFile(files, filepath);
        if computeSource != "" {
          program := CreateComputeProgram(gl, computeSource);
        }
      } else {
        var shader := ParseShader(files, filepath);
        if shader.vertexShader == "" || shader.fragmentShader == "" {
          // the missing section is reported; the program stays 0
        } else {
          program := CreateShader(gl, shader.vertexShader, shader.fragmentShader);
        }
      }
      shaderObj := program;
    }
  }
}
