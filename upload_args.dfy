/** Argument parsing of the `upload` command: `upload service name=file
    [name2=file2 ...]`. The arguments are either rejected with an error kind
    (BadRequest, NotValid, AlreadyExists) or turned into one resource file
    per `name=file` argument, in argument order. */
module UploadArgs {
  import opened Results

  /** The error classes the command's Init distinguishes. */
  datatype ErrorKind = BadRequest | NotValid | AlreadyExists

  /** One file to upload as the resource `name` of `service`. */
  datatype ResourceFile = ResourceFile(service: string, name: string, filename: string)

  /** What a successful Init records on the command. */
  datatype Parsed = Parsed(service: string, files: seq<ResourceFile>)

  /** Position of the first occurrence of `c` in `s`, if any. */
  function FirstIndex(s: string, c: char): (r: Option<nat>)
    ensures r.None? <==> c !in s
    ensures r.Some? ==> r.value < |s| && s[r.value] == c && c !in s[..r.value]
  {
    if s == [] then None
    else if s[0] == c then Some(0)
    else match FirstIndex(s[1..], c)
      case None => None
      case Some(k) =>
        assert s[1..][..k] == s[1..k + 1];
        Some(k + 1)
  }

  /** The text form of a resource argument: `name=file`. */
  function ResourceArg(name: string, filename: string): string
  {
    name + "=" + filename
  }

  /** A resource argument that names a resource and a file and can be split
      back at its first `=`. */
  predicate WellFormedArg(name: string, filename: string)
  {
    name != "" && filename != "" && '=' !in name
  }

  /** Splits one `name=file` argument at its first `=`. A missing `=`, an
      empty name or an empty file name is NotValid. */
  function ParseResourceArg(service: string, raw: string): (r: Result<ResourceFile, ErrorKind>)
    ensures r.Err? ==> r.error == NotValid
    ensures r.Ok? ==> r.value.service == service
    ensures r.Ok? ==> WellFormedArg(r.value.name, r.value.filename)
    ensures r.Ok? ==> raw == ResourceArg(r.value.name, r.value.filename)
  {
    match FirstIndex(raw, '=')
    case None => Err(NotValid)
    case Some(k) =>
      var name, filename := raw[..k], raw[k + 1..];
      if name == "" || filename == "" then Err(NotValid)
      else
        assert raw == name + "=" + filename;
        Ok(ResourceFile(service, name, filename))
  }

  /** Every argument that `ParseResourceArg` accepts is the text form of the
      file it returns, and conversely: the two are inverse. */
  lemma ParseResourceArgRoundTrip(service: string, name: string, filename: string)
    requires WellFormedArg(name, filename)
    ensures ParseResourceArg(service, ResourceArg(name, filename)) == Ok(ResourceFile(service, name, filename))
  {
    var raw := ResourceArg(name, filename);
    assert raw[..|name|] == name;
    assert raw[|name| + 1..] == filename;
    assert raw[|name|] == '=';
  }

  /** The names of the files parsed so far (the command's duplicate map). */
  function Names(fs: seq<ResourceFile>): (r: set<string>)
    ensures forall i :: 0 <= i < |fs| ==> fs[i].name in r
    ensures forall n :: n in r ==> exists i :: 0 <= i < |fs| && fs[i].name == n
  {
    set i | 0 <= i < |fs| :: fs[i].name
  }

  /** Parses the resource arguments left to right; the first malformed
      argument is NotValid and the first repeated name is AlreadyExists. */
  function ParseResources(service: string, raws: seq<string>): (r: Result<seq<ResourceFile>, ErrorKind>)
    ensures r.Ok? ==> |r.value| == |raws|
    ensures r.Ok? ==> forall i :: 0 <= i < |raws| ==> ParseResourceArg(service, raws[i]) == Ok(r.value[i])
    ensures r.Ok? ==> forall i, j :: 0 <= i < j < |raws| ==> r.value[i].name != r.value[j].name
    ensures r.Err? ==> r.error == NotValid || r.error == AlreadyExists
  {
    if raws == [] then Ok([])
    else
      var init := raws[..|raws| - 1];
      match ParseResources(service, init)
      case Err(e) => Err(e)
      case Ok(fs) =>
        match ParseResourceArg(service, raws[|raws| - 1])
        case Err(e) => Err(e)
        case Ok(rf) =>
          if rf.name in Names(fs) then Err(AlreadyExists)
          else
            assert forall i :: 0 <= i < |init| ==> raws[i] == init[i];
            Ok(fs + [rf])
  }

  /** Every resource argument is well formed. */
  ghost predicate AllWellFormed(service: string, raws: seq<string>)
  {
    forall i :: 0 <= i < |raws| ==> ParseResourceArg(service, raws[i]).Ok?
  }

  /** Both arguments are well formed and name the same resource. */
  predicate SameName(service: string, a: string, b: string)
  {
    var ra, rb := ParseResourceArg(service, a), ParseResourceArg(service, b);
    ra.Ok? && rb.Ok? && ra.value.name == rb.value.name
  }

  /** Two well-formed resource arguments name the same resource. */
  ghost predicate HasDuplicateName(service: string, raws: seq<string>)
  {
    exists i, j :: 0 <= i < j < |raws| && SameName(service, raws[i], raws[j])
  }

  /** Parsing succeeds whenever every argument is well formed and no name
      repeats. */
  lemma {:induction false} ParseResourcesComplete(service: string, raws: seq<string>)
    requires AllWellFormed(service, raws)
    requires !HasDuplicateName(service, raws)
    ensures ParseResources(service, raws).Ok?
    decreases |raws|
  {
    if raws != [] {
      var n := |raws| - 1;
      var init := raws[..n];
      assert forall i :: 0 <= i < n ==> raws[i] == init[i];
      assert AllWellFormed(service, init);
      assert !HasDuplicateName(service, init);
      ParseResourcesComplete(service, init);
      var fs := ParseResources(service, init).value;
      var rf := ParseResourceArg(service, raws[n]).value;
      assert rf.name !in Names(fs);
      assert ParseResources(service, raws) == Ok(fs + [rf]);
    }
  }

  /** A NotValid failure always has a malformed argument behind it, and an
      AlreadyExists failure a repeated name. */
  lemma {:induction false} ParseResourcesErrorCause(service: string, raws: seq<string>)
    ensures ParseResources(service, raws) == Err(NotValid) ==> !AllWellFormed(service, raws)
    ensures ParseResources(service, raws) == Err(AlreadyExists) ==> HasDuplicateName(service, raws)
    decreases |raws|
  {
    if raws != [] {
      var n := |raws| - 1;
      var init := raws[..n];
      assert forall i :: 0 <= i < n ==> raws[i] == init[i];
      match ParseResources(service, init)
      case Err(e) =>
        ParseResourcesErrorCause(service, init);
        if e == NotValid {
          var i :| 0 <= i < n && !ParseResourceArg(service, init[i]).Ok?;
          assert !ParseResourceArg(service, raws[i]).Ok?;
        } else {
          var i, j :| 0 <= i < j < n && SameName(service, init[i], init[j]);
          assert SameName(service, raws[i], raws[j]);
        }
      case Ok(fs) =>
        var last := ParseResourceArg(service, raws[n]);
        if last.Err? {
          assert !ParseResourceArg(service, raws[n]).Ok?;
        } else if last.value.name in Names(fs) {
          var i :| 0 <= i < |fs| && fs[i].name == last.value.name;
          assert SameName(service, raws[i], raws[n]);
        }
    }
  }

  /** The command's Init: the first argument names the service, the rest are
      resource arguments; fewer than two arguments is a BadRequest. */
  function ParseArgs(args: seq<string>): (r: Result<Parsed, ErrorKind>)
    ensures r == Err(BadRequest) <==> |args| < 2
    ensures r.Ok? ==> r.value.service == args[0] && |r.value.files| == |args| - 1
    ensures r.Ok? ==> forall i :: 0 <= i < |r.value.files| ==> FileFromArg(args[0], args[i + 1], r.value.files[i])
    ensures r.Ok? ==> forall i, j :: 0 <= i < j < |r.value.files| ==> r.value.files[i].name != r.value.files[j].name
  {
    if |args| < 2 then Err(BadRequest)
    else
      match ParseResources(args[0], args[1..])
      case Err(e) => Err(e)
      case Ok(fs) =>
        assert forall i :: 0 <= i < |fs| ==> ParseResourceArg(args[0], args[1..][i]) == Ok(fs[i]);
        Ok(Parsed(args[0], fs))
  }

  /** `f` is the file the resource argument `raw` asks to upload for `service`. */
  predicate FileFromArg(service: string, raw: string, f: ResourceFile)
  {
    f.service == service && WellFormedArg(f.name, f.filename) && raw == ResourceArg(f.name, f.filename)
  }

  /** Init succeeds on every list of a service and well-formed resource
      arguments with distinct names, yielding exactly those files in order. */
  lemma InitSucceeds(args: seq<string>, files: seq<ResourceFile>)
    requires |args| == |files| + 1 && |files| > 0
    requires forall i :: 0 <= i < |files| ==> FileFromArg(args[0], args[i + 1], files[i])
    requires forall i, j :: 0 <= i < j < |files| ==> files[i].name != files[j].name
    ensures ParseArgs(args) == Ok(Parsed(args[0], files))
  {
    var raws := args[1..];
    forall i | 0 <= i < |raws|
      ensures ParseResourceArg(args[0], raws[i]) == Ok(files[i])
    {
      assert raws[i] == args[i + 1];
      ParseResourceArgRoundTrip(args[0], files[i].name, files[i].filename);
    }
    forall i, j | 0 <= i < j < |raws|
      ensures !SameName(args[0], raws[i], raws[j])
    {
    }
    ParseResourcesComplete(args[0], raws);
    var fs := ParseResources(args[0], raws).value;
    assert forall i :: 0 <= i < |fs| ==> fs[i] == files[i];
    assert fs == files;
  }

  /** Init with no argument, or with a service but no resource, is a
      BadRequest. */
  lemma InitTooFewArgs(args: seq<string>)
    requires |args| < 2
    ensures ParseArgs(args) == Err(BadRequest)
  {
  }

  /** A resource argument without `=`, with an empty name or with an empty
      file name makes Init fail; when the well-formed arguments repeat no
      name, the failure is NotValid. */
  lemma InitMalformedArg(args: seq<string>, k: nat)
    requires 1 <= k < |args|
    requires ParseResourceArg(args[0], args[k]).Err?
    ensures ParseArgs(args).Err?
    ensures !HasDuplicateName(args[0], args[1..]) ==> ParseArgs(args) == Err(NotValid)
  {
    var raws := args[1..];
    assert raws[k - 1] == args[k];
    ParseResourcesErrorCause(args[0], raws);
  }

  /** Two well-formed resource arguments with the same name make Init fail;
      when every resource argument is well formed, it fails with
      AlreadyExists, whatever the two file names are. */
  lemma InitDuplicateName(args: seq<string>, i: nat, j: nat, name: string, f1: string, f2: string)
    requires 1 <= i < j < |args|
    requires WellFormedArg(name, f1) && WellFormedArg(name, f2)
    requires args[i] == ResourceArg(name, f1) && args[j] == ResourceArg(name, f2)
    ensures ParseArgs(args).Err?
    ensures AllWellFormed(args[0], args[1..]) ==> ParseArgs(args) == Err(AlreadyExists)
  {
    var raws := args[1..];
    assert raws[i - 1] == args[i] && raws[j - 1] == args[j];
    ParseResourceArgRoundTrip(args[0], name, f1);
    ParseResourceArgRoundTrip(args[0], name, f2);
    assert SameName(args[0], raws[i - 1], raws[j - 1]);
    ParseResourcesErrorCause(args[0], raws);
  }

  /** Init with no arguments, or with only a service, is a BadRequest. */
  lemma InitEmptyAndOneArgExamples()
    ensures ParseArgs([]) == Err(BadRequest)
    ensures ParseArgs(["foo"]) == Err(BadRequest)
  {
  }

  /** A resource argument that is a bare name is NotValid. */
  lemma InitJustNameExample()
    ensures ParseArgs(["foo", "bar"]) == Err(NotValid)
  {
  }

  /** Two resource arguments with the same name are AlreadyExists, though
      their file names differ. */
  lemma InitDuplicateExample()
    ensures ParseArgs(["foo", "foo=bar", "foo=baz"]) == Err(AlreadyExists)
  {
    var args := ["foo", "foo=bar", "foo=baz"];
    assert args[1] == ResourceArg("foo", "bar");
    assert args[2] == ResourceArg("foo", "baz");
    ParseResourceArgRoundTrip("foo", "foo", "bar");
    ParseResourceArgRoundTrip("foo", "foo", "baz");
    var raws := args[1..];
    assert raws[0] == args[1] && raws[1] == args[2];
    assert AllWellFormed(args[0], raws);
    InitDuplicateName(args, 1, 2, "foo", "bar", "baz");
  }

  /** An empty resource name or an empty file name is NotValid. */
  lemma InitNoNameNoPathExamples()
    ensures ParseArgs(["foo", "=foobar"]) == Err(NotValid)
    ensures ParseArgs(["foo", "foobar="]) == Err(NotValid)
  {
  }

  /** A single well-formed resource argument gives a single file for the
      service. */
  lemma InitGoodExample()
    ensures ParseArgs(["foo", "bar=baz"]) == Ok(Parsed("foo", [ResourceFile("foo", "bar", "baz")]))
  {
    var args := ["foo", "bar=baz"];
    var files := [ResourceFile("foo", "bar", "baz")];
    assert args[1] == ResourceArg("bar", "baz");
    assert FileFromArg(args[0], args[1], files[0]);
    InitSucceeds(args, files);
  }

  /** Two well-formed resource arguments give two files, in argument order. */
  lemma InitTwoResourcesExample()
    ensures ParseArgs(["foo", "bar=baz", "fizz=buzz"])
         == Ok(Parsed("foo", [ResourceFile("foo", "bar", "baz"), ResourceFile("foo", "fizz", "buzz")]))
  {
    var args := ["foo", "bar=baz", "fizz=buzz"];
    var files := [ResourceFile("foo", "bar", "baz"), ResourceFile("foo", "fizz", "buzz")];
    assert args[1] == ResourceArg("bar", "baz");
    assert args[2] == ResourceArg("fizz", "buzz");
    assert FileFromArg(args[0], args[1], files[0]);
    assert FileFromArg(args[0], args[2], files[1]);
    assert files[0].name != files[1].name;
    InitSucceeds(args, files);
  }
}
