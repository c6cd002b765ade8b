/**
 * The "Insert Media" file-picker button: the `acceptedType` string it is
 * given, the four upload groups it forms from the picked files, and the
 * upload commands it runs for them.
 */
module ImageUploadUI {
  import opened Text

  /** A picked file: its name and its MIME type (`file.type`). */
  datatype File = File(name: string, mimeType: string)

  /** The four configured type lists. */
  datatype UploadConfig = UploadConfig(
    imageTypes: seq<string>, videoTypes: seq<string>, fileTypes: seq<string>, extraFileTypes: seq<string>)

  /**
   * The `test` of the image, video and file MIME-type regular expressions
   * built from the configuration; their builders are not part of this model.
   */
  datatype TypeTests = TypeTests(isImage: string -> bool, isVideo: string -> bool, isFile: string -> bool)

  // acceptedType

  /** The picker's `acceptedType`: each list comma-joined, and the four joined by commas. */
  function AcceptedType(c: UploadConfig): string
  {
    Join(c.imageTypes, ',') + "," + Join(c.videoTypes, ',') + "," + Join(c.fileTypes, ',') + "," + Join(c.extraFileTypes, ',')
  }

  /** The pieces a list leaves between its commas: its types, or one empty piece when it is empty. */
  function Pieces(types: seq<string>): seq<string>
  {
    if |types| == 0 then [""] else types
  }

  /** No configured type holds a comma. */
  predicate CommaFree(types: seq<string>)
  {
    forall i :: 0 <= i < |types| ==> ',' !in types[i]
  }

  lemma SplitPieces(types: seq<string>)
    requires CommaFree(types)
    ensures Split(Join(types, ','), ',') == Pieces(types)
  {
    if |types| > 0 {
      SplitJoin(types, ',');
    }
  }

  /**
   * Splitting `acceptedType` at its commas gives back the four lists in
   * order, an empty list leaving an empty piece: the three separators are
   * always there.
   */
  lemma {:induction false} AcceptedTypePieces(c: UploadConfig)
    requires CommaFree(c.imageTypes) && CommaFree(c.videoTypes) && CommaFree(c.fileTypes) && CommaFree(c.extraFileTypes)
    ensures Split(AcceptedType(c), ',')
            == Pieces(c.imageTypes) + Pieces(c.videoTypes) + Pieces(c.fileTypes) + Pieces(c.extraFileTypes)
  {
    var a, b, d, e := Join(c.imageTypes, ','), Join(c.videoTypes, ','), Join(c.fileTypes, ','), Join(c.extraFileTypes, ',');
    var tail2 := d + [','] + e;
    var tail1 := b + [','] + tail2;
    Separators(a, b, d, e);
    SplitAround(d, e, ',');
    SplitAround(b, tail2, ',');
    SplitAround(a, tail1, ',');
    SplitPieces(c.imageTypes);
    SplitPieces(c.videoTypes);
    SplitPieces(c.fileTypes);
    SplitPieces(c.extraFileTypes);
    Assoc4(Split(a, ','), Split(b, ','), Split(d, ','), Split(e, ','));
  }

  lemma Assoc4(w: seq<string>, x: seq<string>, y: seq<string>, z: seq<string>)
    ensures w + (x + (y + z)) == w + x + y + z
  {
  }

  lemma Separators(a: string, b: string, d: string, e: string)
    ensures a + "," + b + "," + d + "," + e == a + [','] + (b + [','] + (d + [','] + e))
  {
    assert "," == [','];
  }

  /** How many times `ch` occurs in `s`. */
  function Count(s: string, ch: char): nat
  {
    if |s| == 0 then 0 else (if s[0] == ch then 1 else 0) + Count(s[1..], ch)
  }

  lemma {:induction false} CountAppend(a: string, b: string, ch: char)
    ensures Count(a + b, ch) == Count(a, ch) + Count(b, ch)
  {
    if |a| == 0 {
      assert a + b == b;
    } else {
      assert (a + b)[0] == a[0];
      assert (a + b)[1..] == a[1..] + b;
      CountAppend(a[1..], b, ch);
    }
  }

  /** The commas inside one joined list: one fewer than its types, none for an empty list. */
  lemma {:induction false} JoinCommas(types: seq<string>)
    requires CommaFree(types)
    ensures Count(Join(types, ','), ',') == if |types| == 0 then 0 else |types| - 1
  {
    if |types| == 1 {
      CountZero(types[0], ',');
    } else if |types| > 1 {
      JoinCommas(types[1..]);
      CountZero(types[0], ',');
      CountAppend(types[0] + [','], Join(types[1..], ','), ',');
      CountAppend(types[0], [','], ',');
    }
  }

  lemma {:induction false} CountZero(s: string, ch: char)
    requires ch !in s
    ensures Count(s, ch) == 0
  {
    if |s| > 0 {
      CountZero(s[1..], ch);
    }
  }

  /** The commas of `acceptedType`: the three separators plus those inside each list. */
  lemma AcceptedTypeCommas(c: UploadConfig)
    requires CommaFree(c.imageTypes) && CommaFree(c.videoTypes) && CommaFree(c.fileTypes) && CommaFree(c.extraFileTypes)
    ensures Count(AcceptedType(c), ',') == 3 + Inner(c.imageTypes) + Inner(c.videoTypes) + Inner(c.fileTypes) + Inner(c.extraFileTypes)
  {
    var a, b, d, e := Join(c.imageTypes, ','), Join(c.videoTypes, ','), Join(c.fileTypes, ','), Join(c.extraFileTypes, ',');
    JoinCommas(c.imageTypes);
    JoinCommas(c.videoTypes);
    JoinCommas(c.fileTypes);
    JoinCommas(c.extraFileTypes);
    CountAppend(a + "," + b + "," + d + ",", e, ',');
    CountAppend(a + "," + b + "," + d, ",", ',');
    CountAppend(a + "," + b + ",", d, ',');
    CountAppend(a + "," + b, ",", ',');
    CountAppend(a + ",", b, ',');
    CountAppend(a, ",", ',');
  }

  /** The commas a list's join puts between its types. */
  function Inner(types: seq<string>): nat
  {
    if |types| == 0 then 0 else |types| - 1
  }

  // The upload groups

  /** `files.filter(keep)`: the files that pass, in their order. */
  function Select(files: seq<File>, keep: File -> bool): (r: seq<File>)
    ensures |r| <= |files|
    ensures forall i :: 0 <= i < |r| ==> keep(r[i])
  {
    if |files| == 0 then []
    else
      var rest := Select(files[1..], keep);
      if keep(files[0]) then [files[0]] + rest else rest
  }

  /** A group holds every picked file that passes, as often as it was picked, and nothing else. */
  lemma {:induction false} SelectCounts(files: seq<File>, keep: File -> bool, f: File)
    ensures multiset(Select(files, keep))[f] == if keep(f) then multiset(files)[f] else 0
  {
    if |files| > 0 {
      SelectCounts(files[1..], keep, f);
      assert files == [files[0]] + files[1..];
    }
  }

  /** A file is in a group iff it was picked and passes the group's test. */
  lemma SelectMembership(files: seq<File>, keep: File -> bool, f: File)
    ensures f in Select(files, keep) <==> f in files && keep(f)
  {
    SelectCounts(files, keep, f);
    assert f in Select(files, keep) <==> multiset(Select(files, keep))[f] > 0;
  }

  /** `a` is `b` with some items left out, the others in their order. */
  ghost predicate IsSubsequence(a: seq<File>, b: seq<File>)
    decreases |b|
  {
    if |a| == 0 then true
    else if |b| == 0 then false
    else (a[0] == b[0] && IsSubsequence(a[1..], b[1..])) || IsSubsequence(a, b[1..])
  }

  /** A group keeps the order of the picked files. */
  lemma {:induction false} SelectOrdered(files: seq<File>, keep: File -> bool)
    ensures IsSubsequence(Select(files, keep), files)
  {
    if |files| > 0 {
      SelectOrdered(files[1..], keep);
      var rest := Select(files[1..], keep);
      if keep(files[0]) {
        assert ([files[0]] + rest)[1..] == rest;
      }
    }
  }

  /** The image group: files whose MIME type the image regular expression accepts. */
  function Images(t: TypeTests, files: seq<File>): seq<File>
  {
    Select(files, (f: File) => t.isImage(f.mimeType))
  }

  /** The video group: a video MIME type, or `.mkv` anywhere in the name. */
  predicate IsVideo(t: TypeTests, f: File)
  {
    t.isVideo(f.mimeType) || Includes(f.name, ".mkv")
  }

  function Videos(t: TypeTests, files: seq<File>): seq<File>
  {
    Select(files, (f: File) => IsVideo(t, f))
  }

  function Files(t: TypeTests, files: seq<File>): seq<File>
  {
    Select(files, (f: File) => t.isFile(f.mimeType))
  }

  /** `extraFileTypes.some(type => name.includes(type))`. */
  function SomeIncluded(name: string, types: seq<string>): (r: bool)
    ensures r <==> exists i :: 0 <= i < |types| && Includes(name, types[i])
  {
    if |types| == 0 then false
    else Includes(name, types[0]) || SomeIncluded(name, types[1..])
  }

  function Extras(extraFileTypes: seq<string>, files: seq<File>): seq<File>
  {
    Select(files, (f: File) => SomeIncluded(f.name, extraFileTypes))
  }

  /**
   * A file is in the video group iff it was picked and its MIME type is a
   * video type or its name contains `.mkv`.
   */
  lemma VideoMembership(t: TypeTests, files: seq<File>, f: File)
    ensures f in Videos(t, files) <==> f in files && (t.isVideo(f.mimeType) || exists i :: OccursAt(f.name, ".mkv", i))
  {
    SelectMembership(files, (g: File) => IsVideo(t, g), f);
  }

  /**
   * A file is in the extra group iff it was picked and its name contains one
   * of the extra types; with no extra types the group is empty.
   */
  lemma ExtraMembership(extraFileTypes: seq<string>, files: seq<File>, f: File)
    ensures f in Extras(extraFileTypes, files)
            <==> f in files && exists i :: 0 <= i < |extraFileTypes| && Includes(f.name, extraFileTypes[i])
    ensures |extraFileTypes| == 0 ==> Extras(extraFileTypes, files) == []
  {
    SelectMembership(files, (g: File) => SomeIncluded(g.name, extraFileTypes), f);
    if |extraFileTypes| == 0 {
      var r := Extras(extraFileTypes, files);
      assert |r| > 0 ==> SomeIncluded(r[0].name, extraFileTypes);
    }
  }

  // The upload commands

  datatype Command = UploadImage | UploadVideo | FileUpload

  function CommandName(c: Command): string
  {
    match c
    case UploadImage => "uploadImage"
    case UploadVideo => "uploadVideo"
    case FileUpload => "fileUpload"
  }

  /** `editor.execute(name, { file: files })`. */
  datatype Execution = Execution(command: Command, files: seq<File>)

  /** The four groups with the command each one is given to, in the order they are tried. */
  function Routes(t: TypeTests, extraFileTypes: seq<string>, files: seq<File>): seq<Execution>
  {
    [ Execution(UploadImage, Images(t, files)), Execution(UploadVideo, Videos(t, files)),
      Execution(FileUpload, Files(t, files)), Execution(FileUpload, Extras(extraFileTypes, files)) ]
  }

  /** The run a route makes: one when its group is non-empty (`if (group.length)`), none otherwise. */
  function Run(route: Execution): seq<Execution>
  {
    if |route.files| > 0 then [route] else []
  }

  /** The executions one `done` event makes, route by route. */
  function Dispatch(t: TypeTests, extraFileTypes: seq<string>, files: seq<File>): seq<Execution>
  {
    var rs := Routes(t, extraFileTypes, files);
    Run(rs[0]) + Run(rs[1]) + Run(rs[2]) + Run(rs[3])
  }

  /**
   * A command is run with a group iff that group is non-empty; there are at
   * most four runs, each with a non-empty group, and `uploadImage` runs
   * first whenever it runs.
   */
  lemma DispatchFires(t: TypeTests, extraFileTypes: seq<string>, files: seq<File>)
    ensures var d, rs := Dispatch(t, extraFileTypes, files), Routes(t, extraFileTypes, files);
            && |d| <= 4
            && (forall e :: e in d <==> e in rs && |e.files| > 0)
            && (|Images(t, files)| > 0 ==> d[0] == Execution(UploadImage, Images(t, files)))
  {
  }

  /** The commands in the order they run. */
  function Commands(d: seq<Execution>): (r: seq<Command>)
    ensures |r| == |d| && forall i :: 0 <= i < |d| ==> r[i] == d[i].command
  {
    if |d| == 0 then [] else [d[0].command] + Commands(d[1..])
  }

  /**
   * The commands run in the fixed order `uploadImage`, `uploadVideo`,
   * `fileUpload`, `fileUpload`, each present iff its group is non-empty; so
   * `fileUpload` runs twice exactly when the file and the extra groups are
   * both non-empty.
   */
  lemma DispatchOrder(t: TypeTests, extraFileTypes: seq<string>, files: seq<File>)
    ensures Commands(Dispatch(t, extraFileTypes, files))
            == (if |Images(t, files)| > 0 then [UploadImage] else [])
               + (if |Videos(t, files)| > 0 then [UploadVideo] else [])
               + (if |Files(t, files)| > 0 then [FileUpload] else [])
               + (if |Extras(extraFileTypes, files)| > 0 then [FileUpload] else [])
  {
    var rs := Routes(t, extraFileTypes, files);
    RunsCommands(rs[0], rs[1], rs[2], rs[3]);
  }

  /** The commands of one route's run: its command when its group is non-empty. */
  function RunCommand(route: Execution): seq<Command>
  {
    if |route.files| > 0 then [route.command] else []
  }

  /** The commands of four runs in a row are the commands of each run, in order. */
  lemma RunsCommands(r0: Execution, r1: Execution, r2: Execution, r3: Execution)
    ensures Commands(Run(r0) + Run(r1) + Run(r2) + Run(r3))
         == RunCommand(r0) + RunCommand(r1) + RunCommand(r2) + RunCommand(r3)
  {
    var a, b, c, d := Run(r0), Run(r1), Run(r2), Run(r3);
    assert Commands(a) == RunCommand(r0) && Commands(b) == RunCommand(r1);
    assert Commands(c) == RunCommand(r2) && Commands(d) == RunCommand(r3);
    CommandsAppend(a, b);
    CommandsAppend(a + b, c);
    CommandsAppend(a + b + c, d);
  }

  lemma CommandsAppend(x: seq<Execution>, y: seq<Execution>)
    ensures Commands(x + y) == Commands(x) + Commands(y)
  {
  }

  /** A file that no group's test accepts is handed to no command. */
  lemma UnroutedFile(t: TypeTests, extraFileTypes: seq<string>, files: seq<File>, f: File)
    requires !t.isImage(f.mimeType) && !IsVideo(t, f) && !t.isFile(f.mimeType) && !SomeIncluded(f.name, extraFileTypes)
    ensures forall e :: e in Dispatch(t, extraFileTypes, files) ==> f !in e.files
  {
    SelectMembership(files, (g: File) => t.isImage(g.mimeType), f);
    SelectMembership(files, (g: File) => IsVideo(t, g), f);
    SelectMembership(files, (g: File) => t.isFile(g.mimeType), f);
    SelectMembership(files, (g: File) => SomeIncluded(g.name, extraFileTypes), f);
    DispatchFires(t, extraFileTypes, files);
  }

  /** The groups overlap: a picked file that is both an image and a video is handed to both commands. */
  lemma SharedFile(t: TypeTests, extraFileTypes: seq<string>, files: seq<File>, f: File)
    requires f in files && t.isImage(f.mimeType) && IsVideo(t, f)
    ensures Execution(UploadImage, Images(t, files)) in Dispatch(t, extraFileTypes, files)
    ensures Execution(UploadVideo, Videos(t, files)) in Dispatch(t, extraFileTypes, files)
    ensures f in Images(t, files) && f in Videos(t, files)
  {
    SelectMembership(files, (g: File) => t.isImage(g.mimeType), f);
    SelectMembership(files, (g: File) => IsVideo(t, g), f);
    DispatchFires(t, extraFileTypes, files);
  }

  // The editor and the button

  /** The editor, reduced to the commands run on it. */
  class Editor {
    var executed: seq<Execution>

    constructor()
      ensures executed == []
    {
      executed := [];
    }

    /** `editor.execute(command, { file: files })`. */
    method Execute(command: Command, files: seq<File>)
      modifies this
      ensures executed == old(executed) + [Execution(command, files)]
    {
      executed := executed + [Execution(command, files)];
    }
  }

  /** The `FileDialogButtonView` the component creator returns, with its `done` handler. */
  class MediaUploadButton {
    const acceptedType: string
    const allowMultipleFiles: bool
    const editor: Editor
    const tests: TypeTests
    const extraFileTypes: seq<string>

    constructor(editor: Editor, config: UploadConfig, tests: TypeTests)
      ensures acceptedType == AcceptedType(config) && allowMultipleFiles
      ensures this.editor == editor && this.tests == tests && extraFileTypes == config.extraFileTypes
    {
      this.acceptedType := AcceptedType(config);
      this.allowMultipleFiles := true;
      this.editor := editor;
      this.tests := tests;
      this.extraFileTypes := config.extraFileTypes;
    }

    /** The `done` handler: forms the four groups and runs a command for each non-empty one, in order. */
    method Done(files: seq<File>)
      modifies editor
      ensures editor.executed == old(editor.executed) + Dispatch(tests, extraFileTypes, files)
    {
      var images := Images(tests, files);
      var videos := Videos(tests, files);
      var fileGroup := Files(tests, files);
      var extras := Extras(extraFileTypes, files);
      ghost var rs := Routes(tests, extraFileTypes, files);
      ghost var log := old(editor.executed);
      if |images| > 0 {
        editor.Execute(UploadImage, images);
      }
      assert editor.executed == log + Run(rs[0]);
      if |videos| > 0 {
        editor.Execute(UploadVideo, videos);
      }
      LogGrows(log, Run(rs[0]), Run(rs[1]));
      assert editor.executed == log + (Run(rs[0]) + Run(rs[1]));
      if |fileGroup| > 0 {
        editor.Execute(FileUpload, fileGroup);
      }
      LogGrows(log, Run(rs[0]) + Run(rs[1]), Run(rs[2]));
      assert editor.executed == log + (Run(rs[0]) + Run(rs[1]) + Run(rs[2]));
      if |extras| > 0 {
        editor.Execute(FileUpload, extras);
      }
      LogGrows(log, Run(rs[0]) + Run(rs[1]) + Run(rs[2]), Run(rs[3]));
    }
  }

  lemma LogGrows(log: seq<Execution>, done: seq<Execution>, next: seq<Execution>)
    ensures log + done + next == log + (done + next)
  {
  }

  /** Who creates a UI component: here only the media upload button's creator. */
  datatype Creator = MediaUploadCreator(config: UploadConfig)

  /** The editor's UI component factory. */
  class ComponentFactory {
    var creators: map<string, Creator>

    constructor()
      ensures creators == map[]
    {
      creators := map[];
    }

    method Add(name: string, creator: Creator)
      modifies this
      ensures creators == old(creators)[name := creator]
    {
      creators := creators[name := creator];
    }
  }

  /** The plugin's `init`: `uploadImage` and its alias `imageUpload` get the same creator. */
  method Init(factory: ComponentFactory, config: UploadConfig)
    modifies factory
    ensures factory.creators == old(factory.creators)["uploadImage" := MediaUploadCreator(config)]["imageUpload" := MediaUploadCreator(config)]
    ensures factory.creators["uploadImage"] == factory.creators["imageUpload"]
  {
    factory.Add("uploadImage", MediaUploadCreator(config));
    factory.Add("imageUpload", MediaUploadCreator(config));
  }
}
