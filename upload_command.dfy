/** The `upload` command object: Init records the service and the resource
    files on the command, Run connects a client and uploads every file in
    order. Run talks only to its dependencies (a client factory and a file
    opener); here they are the recording stub the command's tests drive, and
    the observable outcome of Run is the stub's call log. */
module ResourceUpload {
  import opened Results
  import opened UploadArgs

  /** A byte stream handed out by the file opener. */
  datatype Stream = Stream(id: nat)

  /** One entry of the stub's call log. `Upload` and `Close` are calls on the
      client, `FileClose` is the close of an opened stream. */
  datatype Call =
    | NewClient
    | OpenResource(path: string)
    | Upload(service: string, name: string, file: Stream)
    | FileClose
    | Close

  /** The recording dependencies: every call on the client factory, the
      opener, the client and the opened stream is appended to one log, and
      the opener hands out the same stream every time. No call fails. */
  class StubUploadDeps {
    var calls: seq<Call>
    const file: Stream

    constructor (file: Stream)
      ensures calls == [] && this.file == file
    {
      calls := [];
      this.file := file;
    }

    method NewClient()
      modifies this
      ensures calls == old(calls) + [Call.NewClient]
    {
      calls := calls + [Call.NewClient];
    }

    method OpenResource(path: string) returns (f: Stream)
      modifies this
      ensures f == file
      ensures calls == old(calls) + [Call.OpenResource(path)]
    {
      calls := calls + [Call.OpenResource(path)];
      f := file;
    }

    method Upload(service: string, name: string, f: Stream)
      modifies this
      ensures calls == old(calls) + [Call.Upload(service, name, f)]
    {
      calls := calls + [Call.Upload(service, name, f)];
    }

    method FileClose()
      modifies this
      ensures calls == old(calls) + [Call.FileClose]
    {
      calls := calls + [Call.FileClose];
    }

    method Close()
      modifies this
      ensures calls == old(calls) + [Call.Close]
    {
      calls := calls + [Call.Close];
    }
  }

  /** The calls that upload one resource file: open it, upload it under its
      service and name, close it. */
  function UploadSteps(rf: ResourceFile, file: Stream): seq<Call>
  {
    [Call.OpenResource(rf.filename), Call.Upload(rf.service, rf.name, file), Call.FileClose]
  }

  /** The calls that upload the files one after another, in order. */
  function AllUploads(fs: seq<ResourceFile>, file: Stream): seq<Call>
  {
    if fs == [] then []
    else AllUploads(fs[..|fs| - 1], file) + UploadSteps(fs[|fs| - 1], file)
  }

  /** The whole log of a Run: connect, upload every file, close the client. */
  function RunTrace(fs: seq<ResourceFile>, file: Stream): seq<Call>
  {
    [Call.NewClient] + AllUploads(fs, file) + [Call.Close]
  }

  class UploadCommand {
    var service: string
    var resourceFiles: seq<ResourceFile>

    /** A zero command, as `var u UploadCommand` declares it. */
    constructor ()
      ensures service == "" && resourceFiles == []
    {
      service := "";
      resourceFiles := [];
    }

    /** A command whose fields are given directly. */
    constructor WithFiles(service: string, files: seq<ResourceFile>)
      ensures this.service == service && resourceFiles == files
    {
      this.service := service;
      resourceFiles := files;
    }

    /** Validates the arguments; on success records the service and the
        files. A failure returns its error kind. */
    method Init(args: seq<string>) returns (err: Option<ErrorKind>)
      modifies this
      ensures err.None? <==> ParseArgs(args).Ok?
      ensures err.Some? ==> ParseArgs(args) == Err(err.value)
      ensures err.None? ==> service == args[0] && resourceFiles == ParseArgs(args).value.files
    {
      match ParseArgs(args)
      case Err(e) =>
        err := Some(e);
      case Ok(p) =>
        service := p.service;
        resourceFiles := p.files;
        err := None;
    }

    /** Connects a client, then opens, uploads and closes each resource file
        in order, and closes the client last. No dependency of the stub
        fails, so Run returns no error. */
    method Run(deps: StubUploadDeps) returns (err: Option<string>)
      modifies deps
      ensures err == None
      ensures deps.calls == old(deps.calls) + RunTrace(resourceFiles, deps.file)
    {
      deps.NewClient();
      for i := 0 to |resourceFiles|
        invariant deps.calls == old(deps.calls) + [Call.NewClient] + AllUploads(resourceFiles[..i], deps.file)
      {
        var rf := resourceFiles[i];
        var f := deps.OpenResource(rf.filename);
        deps.Upload(rf.service, rf.name, f);
        deps.FileClose();
        assert resourceFiles[..i + 1][..i] == resourceFiles[..i];
      }
      assert resourceFiles[..|resourceFiles|] == resourceFiles;
      deps.Close();
      err := None;
    }
  }

  /** Uploading n files takes 3n calls, three per file in file order. */
  lemma {:induction false} AllUploadsAt(fs: seq<ResourceFile>, file: Stream)
    ensures |AllUploads(fs, file)| == 3 * |fs|
    ensures forall i :: 0 <= i < |fs| ==>
              AllUploads(fs, file)[3 * i] == Call.OpenResource(fs[i].filename)
              && AllUploads(fs, file)[3 * i + 1] == Call.Upload(fs[i].service, fs[i].name, file)
              && AllUploads(fs, file)[3 * i + 2] == Call.FileClose
    decreases |fs|
  {
    if fs != [] {
      var init := fs[..|fs| - 1];
      AllUploadsAt(init, file);
      assert forall i :: 0 <= i < |init| ==> init[i] == fs[i];
    }
  }

  /** The log of a Run holds 2 + 3n calls: NewClient first, Close last, and
      for the i-th file OpenResource of its file name, Upload of its service
      and name with the opened stream, and FileClose, at 1 + 3i, 2 + 3i and
      3 + 3i. */
  lemma RunTraceShape(fs: seq<ResourceFile>, file: Stream)
    ensures var t := RunTrace(fs, file);
            |t| == 2 + 3 * |fs| && t[0] == Call.NewClient && t[|t| - 1] == Call.Close
    ensures var t := RunTrace(fs, file);
            forall i :: 0 <= i < |fs| ==>
              t[1 + 3 * i] == Call.OpenResource(fs[i].filename)
              && t[2 + 3 * i] == Call.Upload(fs[i].service, fs[i].name, file)
              && t[3 + 3 * i] == Call.FileClose
  {
    AllUploadsAt(fs, file);
    var t := RunTrace(fs, file);
    forall i | 0 <= i < |fs|
      ensures t[1 + 3 * i] == AllUploads(fs, file)[3 * i]
      ensures t[2 + 3 * i] == AllUploads(fs, file)[3 * i + 1]
      ensures t[3 + 3 * i] == AllUploads(fs, file)[3 * i + 2]
    {
    }
  }

  /** NewClient happens exactly once, first, and Close exactly once, last. */
  lemma RunTraceConnectsOnce(fs: seq<ResourceFile>, file: Stream)
    ensures var t := RunTrace(fs, file);
            forall j :: 0 <= j < |t| ==> (t[j] == Call.NewClient <==> j == 0) && (t[j] == Call.Close <==> j == |t| - 1)
  {
    RunTraceShape(fs, file);
    var t := RunTrace(fs, file);
    forall j | 0 < j < |t| - 1
      ensures t[j] != Call.NewClient && t[j] != Call.Close
    {
      var i := (j - 1) / 3;
      assert j == 1 + 3 * i || j == 2 + 3 * i || j == 3 + 3 * i;
    }
  }

  /** The number of opened streams not yet closed after the calls `t`. */
  function OpenStreams(t: seq<Call>): int
  {
    if t == [] then 0
    else
      OpenStreams(t[..|t| - 1]) + StreamDelta(t[|t| - 1])
  }

  /** An OpenResource opens a stream and a FileClose closes one. */
  function StreamDelta(c: Call): int
  {
    if c.OpenResource? then 1 else if c.FileClose? then -1 else 0
  }

  lemma {:induction false} OpenStreamsAppend(a: seq<Call>, b: seq<Call>)
    ensures OpenStreams(a + b) == OpenStreams(a) + OpenStreams(b)
    decreases |b|
  {
    if b != [] {
      var b' := b[..|b| - 1];
      assert (a + b)[..|a + b| - 1] == a + b';
      assert (a + b)[|a + b| - 1] == b[|b| - 1];
      OpenStreamsAppend(a, b');
      assert OpenStreams(a + b) == OpenStreams(a + b') + StreamDelta(b[|b| - 1]);
    } else {
      assert a + b == a;
    }
  }

  /** Uploading one file opens its stream, uploads while it is open and
      closes it again. */
  lemma UploadStepsBalanced(rf: ResourceFile, file: Stream)
    ensures var s := UploadSteps(rf, file);
            OpenStreams(s[..0]) == 0 && OpenStreams(s[..1]) == 1 && OpenStreams(s[..2]) == 1 && OpenStreams(s[..3]) == 0
  {
    var s := UploadSteps(rf, file);
    assert s[..1][..0] == s[..0];
    assert s[..2][..1] == s[..1];
    assert s[..3][..2] == s[..2];
  }

  /** While the files are uploaded at most one stream is open at any point,
      every Upload happens while its stream is open, and all streams are
      closed at the end. */
  lemma {:induction false} AllUploadsBalanced(fs: seq<ResourceFile>, file: Stream)
    ensures OpenStreams(AllUploads(fs, file)) == 0
    ensures forall k :: 0 <= k <= |AllUploads(fs, file)| ==> 0 <= OpenStreams(AllUploads(fs, file)[..k]) <= 1
    ensures forall k :: 0 <= k < |AllUploads(fs, file)| && AllUploads(fs, file)[k].Upload? ==>
              OpenStreams(AllUploads(fs, file)[..k]) == 1
    decreases |fs|
  {
    if fs != [] {
      var init := fs[..|fs| - 1];
      var a := AllUploads(init, file);
      var s := UploadSteps(fs[|fs| - 1], file);
      var t := AllUploads(fs, file);
      assert t == a + s;
      AllUploadsBalanced(init, file);
      OpenStreamsAppend(a, s);
      UploadStepsBalanced(fs[|fs| - 1], file);
      assert s[..3] == s;
      forall k | 0 <= k <= |t|
        ensures 0 <= OpenStreams(t[..k]) <= 1
        ensures k < |t| && t[k].Upload? ==> OpenStreams(t[..k]) == 1
      {
        if k <= |a| {
          assert t[..k] == a[..k];
          assert a[..|a|] == a;
        } else {
          assert t[..k] == a + s[..k - |a|];
          OpenStreamsAppend(a, s[..k - |a|]);
          assert a[..|a|] == a;
        }
      }
    }
  }

  /** Over a whole Run, at most one stream is open at a time, every Upload
      happens while its stream is open, and every opened stream is closed
      before the client is. */
  lemma RunTraceBalanced(fs: seq<ResourceFile>, file: Stream)
    ensures var t := RunTrace(fs, file);
            OpenStreams(t) == 0 && forall k :: 0 <= k <= |t| ==> 0 <= OpenStreams(t[..k]) <= 1
    ensures var t := RunTrace(fs, file);
            forall k :: 0 <= k < |t| && t[k].Upload? ==> OpenStreams(t[..k]) == 1
  {
    var u := AllUploads(fs, file);
    var t := RunTrace(fs, file);
    AllUploadsBalanced(fs, file);
    OpenStreamsAppend([Call.NewClient], u);
    OpenStreamsAppend([Call.NewClient] + u, [Call.Close]);
    assert OpenStreams([Call.NewClient]) == 0;
    forall k | 0 <= k <= |t|
      ensures 0 <= OpenStreams(t[..k]) <= 1
      ensures k < |t| && t[k].Upload? ==> OpenStreams(t[..k]) == 1
    {
      if k == 0 {
      } else if k <= |u| + 1 {
        assert t[..k] == [Call.NewClient] + u[..k - 1];
        OpenStreamsAppend([Call.NewClient], u[..k - 1]);
      } else {
        assert t[..k] == [Call.NewClient] + u + [Call.Close];
      }
    }
  }

  /** The command's Run test: two files of service "svc" give the log
      NewClient, OpenResource "bar", Upload svc/foo, FileClose,
      OpenResource "bat", Upload svc/baz, FileClose, Close. */
  method RunExample() returns (err: Option<string>, calls: seq<Call>)
    ensures err == None
    ensures calls == [Call.NewClient,
                      Call.OpenResource("bar"), Call.Upload("svc", "foo", Stream(0)), Call.FileClose,
                      Call.OpenResource("bat"), Call.Upload("svc", "baz", Stream(0)), Call.FileClose,
                      Call.Close]
  {
    var deps := new StubUploadDeps(Stream(0));
    var u := new UploadCommand.WithFiles("svc", [ResourceFile("svc", "foo", "bar"), ResourceFile("svc", "baz", "bat")]);
    err := u.Run(deps);
    calls := deps.calls;
    var fs := u.resourceFiles;
    assert fs[..1] == [fs[0]] && [fs[0]][..0] == [];
    assert AllUploads(fs, Stream(0)) == UploadSteps(fs[0], Stream(0)) + UploadSteps(fs[1], Stream(0));
  }

  /** The command's Init test with two resources, through the command
      object: the files and the service are recorded. */
  method InitExample() returns (err: Option<ErrorKind>, service: string, files: seq<ResourceFile>)
    ensures err == None && service == "foo"
    ensures files == [ResourceFile("foo", "bar", "baz"), ResourceFile("foo", "fizz", "buzz")]
  {
    var u := new UploadCommand();
    err := u.Init(["foo", "bar=baz", "fizz=buzz"]);
    InitTwoResourcesExample();
    service, files := u.service, u.resourceFiles;
  }
}
