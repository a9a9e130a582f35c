/** The credentials facade's AuthorisedKeys call: a caller asks for the SSH
    authorised keys a machine should hold. The machine is named by its tag
    (`machine-42`); the caller must hold the manage-state job; the keys are
    the environment's `authorized-keys` setting, one key per line. */
module Credentials {
  import opened Results

  /** The jobs a machine can be given. */
  datatype Job = JobHostUnits | JobManageEnviron | JobManageState

  /** The authenticated caller of the facade: the jobs of the machine it
      logged in as, fixed when it logged in. */
  datatype Caller = Caller(jobs: set<Job>)

  /** What the facade reads of the backing state: the ids of the machines
      that exist and the environment's `authorized-keys` setting. */
  datatype Store = Store(machines: set<string>, authorizedKeys: string)

  datatype ApiError =
    | MalformedTag(tag: string)
    | MachineNotFound(id: string)
    | PermissionDenied

  /** The message each error carries over the wire. */
  function ErrorMessage(e: ApiError): string
  {
    match e
    case MalformedTag(tag) => "\"" + tag + "\" is not a valid machine tag"
    case MachineNotFound(id) => "machine " + id + " not found"
    case PermissionDenied => "permission denied"
  }

  /** A machine id is a decimal number written without leading zeros:
      `0`, or a non-zero digit followed by digits. */
  predicate IsMachineId(id: string)
  {
    id != [] && (forall i :: 0 <= i < |id| ==> '0' <= id[i] <= '9') && (id[0] == '0' ==> |id| == 1)
  }

  const MachinePrefix: string := "machine-"

  /** The tag of the machine with id `id`. */
  function MachineTag(id: string): string
  {
    MachinePrefix + id
  }

  /** The machine id a tag names; anything that is not `machine-` followed by
      a machine id is a malformed tag. */
  function ParseMachineTag(tag: string): (r: Result<string, ApiError>)
    ensures r.Ok? ==> IsMachineId(r.value) && tag == MachineTag(r.value)
    ensures r.Err? ==> r.error == MalformedTag(tag)
  {
    var n := |MachinePrefix|;
    if |tag| > n && tag[..n] == MachinePrefix && IsMachineId(tag[n..]) then
      assert tag == tag[..n] + tag[n..];
      Ok(tag[n..])
    else Err(MalformedTag(tag))
  }

  /** Parsing a machine's tag gives back its id. */
  lemma ParseMachineTagRoundTrip(id: string)
    requires IsMachineId(id)
    ensures ParseMachineTag(MachineTag(id)) == Ok(id)
  {
  }

  /** Splits `s` at every newline, keeping empty pieces and trimming nothing:
      n newlines give n + 1 pieces. */
  function SplitLines(s: string): (r: seq<string>)
    ensures |r| >= 1
    ensures forall i :: 0 <= i < |r| ==> '\n' !in r[i]
  {
    if s == [] then [""]
    else
      var rest := SplitLines(s[1..]);
      if s[0] == '\n' then [""] + rest
      else [[s[0]] + rest[0]] + rest[1..]
  }

  /** Joins the pieces with a newline between each two. */
  function JoinLines(xs: seq<string>): string
  {
    if |xs| == 0 then ""
    else if |xs| == 1 then xs[0]
    else xs[0] + "\n" + JoinLines(xs[1..])
  }

  /** Joining the pieces of a split gives back the split string. */
  lemma {:induction false} JoinSplitLines(s: string)
    ensures JoinLines(SplitLines(s)) == s
    decreases |s|
  {
    if s != [] {
      var rest := SplitLines(s[1..]);
      JoinSplitLines(s[1..]);
      if s[0] == '\n' {
        assert ([""] + rest)[1..] == rest;
        assert s == "" + "\n" + s[1..];
      } else {
        var xs := [[s[0]] + rest[0]] + rest[1..];
        assert xs[1..] == rest[1..];
        if |rest| == 1 {
          assert s == [s[0]] + rest[0];
        } else {
          assert s[1..] == rest[0] + "\n" + JoinLines(rest[1..]);
          assert s == [s[0]] + s[1..];
        }
      }
    }
  }

  /** A newline-free prefix joins the first piece of the split. */
  lemma {:induction false} SplitLinesPrefix(x: string, s: string)
    requires '\n' !in x
    ensures SplitLines(x + s) == [x + SplitLines(s)[0]] + SplitLines(s)[1..]
    decreases |x|
  {
    if x != [] {
      assert (x + s)[0] == x[0];
      assert (x + s)[1..] == x[1..] + s;
      SplitLinesPrefix(x[1..], s);
      assert [x[0]] + (x[1..] + SplitLines(s)[0]) == x + SplitLines(s)[0];
    } else {
      assert x + s == s;
      assert x + SplitLines(s)[0] == SplitLines(s)[0];
      assert [SplitLines(s)[0]] + SplitLines(s)[1..] == SplitLines(s);
    }
  }

  /** Splitting newline-free pieces joined by newlines gives the pieces
      back, in order. */
  lemma {:induction false} SplitJoinLines(xs: seq<string>)
    requires |xs| >= 1
    requires forall i :: 0 <= i < |xs| ==> '\n' !in xs[i]
    ensures SplitLines(JoinLines(xs)) == xs
    decreases |xs|
  {
    if |xs| == 1 {
      SplitLinesPrefix(xs[0], "");
      assert xs[0] + "" == xs[0];
    } else {
      var tail := JoinLines(xs[1..]);
      SplitJoinLines(xs[1..]);
      assert xs[0] + "\n" + tail == xs[0] + ("\n" + tail);
      SplitLinesPrefix(xs[0], "\n" + tail);
      assert ("\n" + tail)[1..] == tail;
      assert xs[0] + "" == xs[0];
      assert [xs[0]] + xs[1..] == xs;
    }
  }

  /** The number of pieces is one more than the number of newlines. */
  lemma {:induction false} SplitLinesCount(s: string)
    ensures |SplitLines(s)| == multiset(s)['\n'] + 1
    decreases |s|
  {
    if s != [] {
      SplitLinesCount(s[1..]);
      assert s == [s[0]] + s[1..];
      assert multiset(s) == multiset{s[0]} + multiset(s[1..]);
    }
  }

  /** The gate every call of the facade passes: the tag must name a machine,
      the caller must hold the manage-state job, and the machine must exist.
      A malformed tag is reported first, then a missing job, then a missing
      machine. */
  function Authorise(caller: Caller, store: Store, tag: string): (r: Result<string, ApiError>)
    ensures r.Ok? <==> ParseMachineTag(tag).Ok? && JobManageState in caller.jobs && ParseMachineTag(tag).value in store.machines
    ensures r.Ok? ==> tag == MachineTag(r.value) && r.value in store.machines
    ensures r == Err(PermissionDenied) <==> ParseMachineTag(tag).Ok? && JobManageState !in caller.jobs
    ensures ParseMachineTag(tag).Err? ==> r == Err(MalformedTag(tag))
    ensures ParseMachineTag(tag).Ok? && JobManageState in caller.jobs && ParseMachineTag(tag).value !in store.machines ==>
              r == Err(MachineNotFound(ParseMachineTag(tag).value))
    ensures r.Err? && r.error.MachineNotFound? ==>
              IsMachineId(r.error.id) && tag == MachineTag(r.error.id) && r.error.id !in store.machines
  {
    match ParseMachineTag(tag)
    case Err(e) => Err(e)
    case Ok(id) =>
      if JobManageState !in caller.jobs then Err(PermissionDenied)
      else if id !in store.machines then Err(MachineNotFound(id))
      else Ok(id)
  }

  /** The authorised keys for the machine `tag`: the environment's
      `authorized-keys` setting split into lines, in order. An empty setting
      gives one empty key. */
  function AuthorisedKeys(caller: Caller, store: Store, tag: string): (r: Result<seq<string>, ApiError>)
    ensures r.Ok? <==> Authorise(caller, store, tag).Ok?
    ensures r.Err? ==> r.error == Authorise(caller, store, tag).error
    ensures r.Ok? ==> |r.value| >= 1 && JoinLines(r.value) == store.authorizedKeys
    ensures r.Ok? ==> forall i :: 0 <= i < |r.value| ==> '\n' !in r.value[i]
  {
    match Authorise(caller, store, tag)
    case Err(e) => Err(e)
    case Ok(_) =>
      JoinSplitLines(store.authorizedKeys);
      Ok(SplitLines(store.authorizedKeys))
  }

  /** Asking, with the manage-state job, for a machine that does not exist
      fails with "machine N not found", naming the id and not the tag. */
  lemma NoSuchMachine(caller: Caller, store: Store, id: string)
    requires IsMachineId(id) && id !in store.machines
    requires JobManageState in caller.jobs
    ensures AuthorisedKeys(caller, store, MachineTag(id)) == Err(MachineNotFound(id))
    ensures ErrorMessage(AuthorisedKeys(caller, store, MachineTag(id)).error) == "machine " + id + " not found"
  {
  }

  /** A caller without the manage-state job is denied, whether or not the
      machine exists. */
  lemma WithoutManageStateDenied(caller: Caller, store: Store, id: string)
    requires IsMachineId(id)
    requires JobManageState !in caller.jobs
    ensures AuthorisedKeys(caller, store, MachineTag(id)) == Err(PermissionDenied)
    ensures ErrorMessage(AuthorisedKeys(caller, store, MachineTag(id)).error) == "permission denied"
  {
  }

  /** A caller with the manage-state job asking for an existing machine gets
      the lines of the setting back, in order. */
  lemma AuthorisedKeysLines(caller: Caller, store: Store, id: string, keys: seq<string>)
    requires IsMachineId(id) && id in store.machines
    requires JobManageState in caller.jobs
    requires |keys| >= 1 && forall i :: 0 <= i < |keys| ==> '\n' !in keys[i]
    requires store.authorizedKeys == JoinLines(keys)
    ensures AuthorisedKeys(caller, store, MachineTag(id)) == Ok(keys)
  {
    ParseMachineTagRoundTrip(id);
    SplitJoinLines(keys);
  }

  /** The facade's test with a tag naming no machine: the state server
      (machine 0, with the manage-state job) asks for machine 42. */
  lemma NoSuchMachineExample()
    ensures ErrorMessage(AuthorisedKeys(Caller({JobManageEnviron, JobManageState}), Store({"0", "1"}, ""), "machine-42").error)
         == "machine 42 not found"
  {
  }

  /** The facade's test with a caller that only hosts units: it asks for
      machine 3, which exists, and is denied. */
  lemma NonStateServerExample()
    ensures ErrorMessage(AuthorisedKeys(Caller({JobHostUnits}), Store({"0", "1", "2", "3"}, ""), "machine-3").error)
         == "permission denied"
  {
  }

  /** The facade's test reading the keys: with the setting "key1\nkey2" the
      state server gets ["key1", "key2"] for machine 1. */
  lemma AuthorisedKeysExample()
    ensures AuthorisedKeys(Caller({JobManageEnviron, JobManageState}), Store({"0", "1"}, "key1\nkey2"), "machine-1")
         == Ok(["key1", "key2"])
  {
    var tag := "machine-1";
    var keys := ["key1", "key2"];
    assert IsMachineId("1");
    assert tag == MachineTag("1");
    assert "key1\nkey2" == JoinLines(keys);
    AuthorisedKeysLines(Caller({JobManageEnviron, JobManageState}), Store({"0", "1"}, "key1\nkey2"), "1", keys);
  }
}
