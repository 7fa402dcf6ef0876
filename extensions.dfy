/**
 * The extensions of the container-image tool: each contributes a command-line flag
 * derived from its name, and some contribute extra `docker run` arguments built from
 * a substitution dict that is read from the host once and then cached.
 *
 * Everything the extensions read from the operating system (user id, user name,
 * environment, group and password databases, home directory) is one `Host` value
 * passed in by the caller.
 */
module Extensions {
  import opened Wrappers
  import opened PyText

  // ============================================================ flag names

  /** The command-line flag for an extension name: `--` and the name with `_` turned into `-`. */
  function NameToArgument(name: string): (arg: string)
    ensures |arg| == |name| + 2 && arg[..2] == "--"
    ensures forall i :: 2 <= i < |arg| ==> arg[i] == (if name[i - 2] == '_' then '-' else name[i - 2])
    ensures forall i :: 0 <= i < |arg| ==> arg[i] != '_'
  {
    "--" + ReplaceChar(name, '_', '-')
  }

  /** The five extensions of the module. */
  datatype Kind = DevHelpersKind | PulseKind | HomeKind | UserKind | EnvKind

  /** What each extension's `get_name` returns. */
  function Name(k: Kind): (n: string)
    ensures |n| > 0 && forall i :: 0 <= i < |n| ==> 'a' <= n[i] <= 'z' || n[i] == '_'
  {
    match k
    case DevHelpersKind => "dev_helpers"
    case PulseKind => "pulse"
    case HomeKind => "home"
    case UserKind => "user"
    case EnvKind => "env"
  }

  /**
   * The flag each extension's `register_arguments` adds to the parser. Four of them
   * derive it from the name; the environment extension spells it out.
   */
  function Flag(k: Kind): (f: string)
    ensures |f| > 2 && f[..2] == "--"
    ensures forall i :: 2 <= i < |f| ==> 'a' <= f[i] <= 'z' || f[i] == '-'
  {
    if k == EnvKind then "--env" else NameToArgument(Name(k))
  }

  /** Every flag, the spelled-out one included, is the flag derived from the extension's name. */
  lemma {:induction false} FlagsFollowNames(k: Kind)
    ensures Flag(k) == NameToArgument(Name(k))
    ensures k == DevHelpersKind ==> Flag(k) == "--dev-helpers"
  {
    if k == EnvKind {
      var f := NameToArgument("env");
      assert f == "--env" by {
        assert |f| == 5 && f[..2] == "--";
        assert f[2] == 'e' && f[3] == 'n' && f[4] == 'v';
      }
    } else if k == DevHelpersKind {
      var f := NameToArgument("dev_helpers");
      assert f == "--dev-helpers" by {
        assert |f| == 13 && f[..2] == "--";
        assert forall i :: 2 <= i < 13 ==> f[i] == "--dev-helpers"[i];
      }
    }
  }

  /** No two extensions register the same flag. */
  lemma {:induction false} FlagsDistinct(k1: Kind, k2: Kind)
    requires k1 != k2
    ensures Flag(k1) != Flag(k2)
  {
  }

  // ============================================================ the host

  /** One entry of the password database (`pwd.struct_passwd`). */
  datatype PasswdEntry = PasswdEntry(
    pwName: string, pwUid: int, pwGid: int, pwGecos: string, pwDir: string, pwShell: string)

  /** The operating-system state the extensions read. */
  datatype Host = Host(
    uid: int,                       // os.getuid()
    user: string,                   // getpass.getuser()
    env: map<string, string>,       // the process environment
    groups: map<string, int>,       // group database: group name to gid
    passwd: map<int, PasswdEntry>,  // password database: uid to entry
    home: string)                   // Path.home()

  /** The exceptions the modelled code can raise. */
  datatype Error =
    | GroupNotFound(group: string)      // grp.getgrnam raises KeyError
    | UidNotFound(uid: int)             // pwd.getpwuid raises KeyError
    | MissingSubstitution(key: string)  // template % dict raises KeyError

  /** `os.getenv(name)`: the variable's value, or `None` when it is unset. */
  function GetEnv(host: Host, name: string): (v: Value)
    ensures v.NoneValue? <==> name !in host.env
    ensures name in host.env ==> v == Str(host.env[name])
  {
    if name in host.env then Str(host.env[name]) else NoneValue
  }

  // ============================================================ substitution dicts

  const DevHelpersKeys: set<string> := {"user_id", "username"}
  const PulseKeys: set<string> := {"user_id", "XDG_RUNTIME_DIR", "audio_group_id"}
  const UserKeys: set<string> := {"name", "uid", "gid", "gecos", "dir", "shell"}

  /** The dev-helpers dict: the current uid and user name. */
  function DevHelpersSubs(host: Host): (m: Subs)
    ensures m.Keys == DevHelpersKeys
    ensures m["user_id"] == Int(host.uid) && m["username"] == Str(host.user)
  {
    map["user_id" := Int(host.uid), "username" := Str(host.user)]
  }

  /**
   * The pulse-audio dict: the current uid, `XDG_RUNTIME_DIR` and the gid of group
   * `audio`; the group lookup fails when there is no such group.
   */
  function PulseSubs(host: Host): (r: Result<Subs, Error>)
    ensures r.Failure? <==> "audio" !in host.groups
    ensures r.Failure? ==> r.error == GroupNotFound("audio")
    ensures r.Success? ==>
      && r.value.Keys == PulseKeys
      && r.value["user_id"] == Int(host.uid)
      && r.value["XDG_RUNTIME_DIR"] == GetEnv(host, "XDG_RUNTIME_DIR")
      && r.value["audio_group_id"] == Int(host.groups["audio"])
  {
    if "audio" !in host.groups then Failure(GroupNotFound("audio"))
    else Success(map["user_id" := Int(host.uid),
                     "XDG_RUNTIME_DIR" := GetEnv(host, "XDG_RUNTIME_DIR"),
                     "audio_group_id" := Int(host.groups["audio"])])
  }

  /** `getattr(entry, 'pw_' + k)` for the six user keys. */
  function PasswdField(e: PasswdEntry, k: string): (v: Value)
    requires k in UserKeys
    ensures v.Int? <==> k == "uid" || k == "gid"
    ensures v.Str? <==> !(k == "uid" || k == "gid")
  {
    if k == "name" then Str(e.pwName)
    else if k == "uid" then Int(e.pwUid)
    else if k == "gid" then Int(e.pwGid)
    else if k == "gecos" then Str(e.pwGecos)
    else if k == "dir" then Str(e.pwDir)
    else Str(e.pwShell)
  }

  /** The user dict: the password entry of the current uid, one key per field. */
  function UserSubs(host: Host): (r: Result<Subs, Error>)
    ensures r.Failure? <==> host.uid !in host.passwd
    ensures r.Failure? ==> r.error == UidNotFound(host.uid)
    ensures r.Success? ==>
      var e := host.passwd[host.uid];
      && r.value.Keys == UserKeys
      && r.value["name"] == Str(e.pwName)
      && r.value["uid"] == Int(e.pwUid)
      && r.value["gid"] == Int(e.pwGid)
      && r.value["gecos"] == Str(e.pwGecos)
      && r.value["dir"] == Str(e.pwDir)
      && r.value["shell"] == Str(e.pwShell)
  {
    if host.uid !in host.passwd then Failure(UidNotFound(host.uid))
    else
      var e := host.passwd[host.uid];
      Success(map k | k in UserKeys :: PasswdField(e, k))
  }

  // ============================================================ the lazy cache

  /** Python's truth value of the cache field: `None` and `{}` are false. */
  predicate Truthy(cache: Option<Subs>): (b: bool)
    ensures b <==> cache.Some? && |cache.value.Keys| > 0
  {
    cache.Some? && cache.value != map[]
  }

  /**
   * One call of `get_environment_subs` given the cache field and what reading the
   * host would produce: the new cache field and the call's outcome. A truthy cache is
   * returned as it is; otherwise the fresh dict is cached and returned, or the
   * lookup's error is raised and the cache left as it was.
   */
  function CachedCall(cache: Option<Subs>, computed: Result<Subs, Error>): (out: (Option<Subs>, Result<Subs, Error>))
    ensures Truthy(cache) ==> out == (cache, Success(cache.value))
    ensures out.1.Success? ==> out.0 == Some(out.1.value)
    ensures !Truthy(cache) ==> out.1 == computed
    ensures out.1.Failure? ==> out.0 == cache
  {
    if Truthy(cache) then (cache, Success(cache.value))
    else
      match computed
      case Success(m) => (Some(m), Success(m))
      case Failure(e) => (cache, Failure(e))
  }

  /**
   * Once a call has succeeded, every later call returns the same dict and leaves the
   * cache alone, whatever the host would now produce, provided fresh dicts are never
   * empty (an empty dict would be falsy and be recomputed).
   */
  lemma {:induction false} CachedCallIdempotent(cache: Option<Subs>, first: Result<Subs, Error>, later: Result<Subs, Error>)
    requires first.Success? ==> first.value != map[]
    requires CachedCall(cache, first).1.Success?
    ensures CachedCall(CachedCall(cache, first).0, later) == CachedCall(cache, first)
  {
  }

  /**
   * `get_environment_subs` of the pulse-audio extension as the source writes it: it
   * stores an empty dict in the cache field and fills it key by key, so when the
   * `audio` group lookup raises, the field keeps the two keys written so far.
   */
  function PulseCallAsWritten(cache: Option<Subs>, host: Host): (out: (Option<Subs>, Result<Subs, Error>))
    ensures Truthy(cache) ==> out == (cache, Success(cache.value))
    ensures !Truthy(cache) && "audio" !in host.groups ==>
      out.1 == Failure(GroupNotFound("audio")) && out.0.Some? && out.0.value.Keys == {"user_id", "XDG_RUNTIME_DIR"}
    ensures !Truthy(cache) && "audio" in host.groups ==> out == (Some(PulseSubs(host).value), PulseSubs(host))
  {
    if Truthy(cache) then (cache, Success(cache.value))
    else
      var partial := map["user_id" := Int(host.uid), "XDG_RUNTIME_DIR" := GetEnv(host, "XDG_RUNTIME_DIR")];
      if "audio" !in host.groups then (Some(partial), Failure(GroupNotFound("audio")))
      else
        var full := partial["audio_group_id" := Int(host.groups["audio"])];
        (Some(full), Success(full))
  }

  /**
   * As written, a missing `audio` group is reported once: the second call returns the
   * two-key dict left in the cache as if it were complete, and formatting the docker
   * arguments from it raises KeyError('audio_group_id').
   */
  lemma {:induction false} MissingAudioGroupPoisonsCache(host: Host, later: Host)
    requires "audio" !in host.groups
    ensures PulseCallAsWritten(None, host).1 == Failure(GroupNotFound("audio"))
    ensures
      var second := PulseCallAsWritten(PulseCallAsWritten(None, host).0, later).1;
      && second.Success?
      && "audio_group_id" !in second.value
      && PulseDockerArgs(second.value) == Failure(MissingSubstitution("audio_group_id"))
  {
  }

  /**
   * With the correction (the dict is cached only once it is complete), the pulse-audio
   * cache is either empty or holds all three keys, and a successful call always yields
   * a dict the docker-argument template can be formatted with.
   */
  lemma {:induction false} PulseCacheComplete(cache: Option<Subs>, host: Host)
    requires cache.Some? ==> cache.value.Keys == PulseKeys
    ensures var (next, r) := CachedCall(cache, PulseSubs(host));
      && (next.Some? ==> next.value.Keys == PulseKeys)
      && (r.Success? ==> PulseDockerArgs(r.value).Success?)
      && (r.Failure? ==> next == cache && r.error == GroupNotFound("audio"))
  {
  }

  // ============================================================ dev helpers

  /** The development-tools extension, with its lazily filled substitution dict. */
  class DevHelpers {
    const name: string
    var envSubs: Option<Subs>
    /** How many times the host has been read. */
    ghost var hostReads: nat

    ghost predicate Valid()
      reads this
    {
      envSubs.Some? ==> envSubs.value.Keys == DevHelpersKeys
    }

    constructor ()
      ensures Valid()
      ensures name == Name(DevHelpersKind) && envSubs == None && hostReads == 0
    {
      name := Name(DevHelpersKind);
      envSubs := None;
      hostReads := 0;
    }

    /** The substitution dict: read from the host on the first call, cached afterwards. */
    method GetEnvironmentSubs(host: Host) returns (subs: Subs)
      requires Valid()
      modifies this
      ensures Valid()
      ensures (envSubs, Success(subs)) == CachedCall(old(envSubs), Success(DevHelpersSubs(host)))
      ensures hostReads == old(hostReads) + (if Truthy(old(envSubs)) then 0 else 1)
    {
      if !Truthy(envSubs) {
        hostReads := hostReads + 1;
        envSubs := Some(map[]);
        envSubs := Some(envSubs.value["user_id" := Int(host.uid)]);
        envSubs := Some(envSubs.value["username" := Str(host.user)]);
      }
      subs := envSubs.value;
    }
  }

  // ============================================================ pulse audio

  /** The runs of pieces of the template that make up the five flags. */
  const RunMountPieces: seq<Piece> :=
    [Text("-v /run/user/"), Field("user_id"), Text("/pulse:/run/user/"), Field("user_id"), Text("/pulse")]
  const DevicePieces: seq<Piece> := [Text("--device /dev/snd")]
  const ServerPieces: seq<Piece> := [Text("-e PULSE_SERVER=unix:"), Field("XDG_RUNTIME_DIR"), Text("/pulse/native")]
  const NativeMountPieces: seq<Piece> :=
    [Text("-v "), Field("XDG_RUNTIME_DIR"), Text("/pulse/native:"), Field("XDG_RUNTIME_DIR"), Text("/pulse/native")]
  const GroupAddPieces: seq<Piece> := [Text("--group-add "), Field("audio_group_id")]

  /**
   * The template of the pulse-audio docker arguments: the text of the source's two
   * adjacent string literals, cut into the five flags and the spaces between them.
   */
  const PulseTemplate: seq<Piece> :=
    [Text(" ")] + RunMountPieces + [Text(" ")] + DevicePieces + [Text("  ")] + ServerPieces
    + [Text(" ")] + NativeMountPieces + [Text(" ")] + GroupAddPieces + [Text(" ")]

  /**
   * The conversions of the pulse-audio template: `user_id` comes first (piece 2),
   * then `XDG_RUNTIME_DIR` (piece 10), then `audio_group_id` (piece 20).
   */
  lemma {:induction false} PulseTemplateFields()
    ensures |PulseTemplate| == 22
    ensures PulseTemplate[2] == Field("user_id")
    ensures PulseTemplate[10] == Field("XDG_RUNTIME_DIR")
    ensures PulseTemplate[20] == Field("audio_group_id")
    ensures forall i :: 0 <= i < 22 && PulseTemplate[i].Field? ==>
      && (i < 10 ==> PulseTemplate[i].key == "user_id")
      && (10 <= i < 20 ==> PulseTemplate[i].key == "XDG_RUNTIME_DIR")
      && (20 <= i ==> PulseTemplate[i].key == "audio_group_id")
  {
    forall i | 0 <= i < 22 && PulseTemplate[i].Field?
      ensures i < 10 ==> PulseTemplate[i].key == "user_id"
      ensures 10 <= i < 20 ==> PulseTemplate[i].key == "XDG_RUNTIME_DIR"
      ensures 20 <= i ==> PulseTemplate[i].key == "audio_group_id"
    {
    }
  }

  /**
   * The pulse-audio docker arguments for a dict: defined exactly when the dict has
   * the three keys; otherwise KeyError of the first missing key in template order.
   */
  function PulseDockerArgs(subs: Subs): (r: Result<string, Error>)
    ensures r.Success? <==> PulseKeys <= subs.Keys
    ensures r.Failure? ==> r.error == MissingSubstitution(
      if "user_id" !in subs then "user_id"
      else if "XDG_RUNTIME_DIR" !in subs then "XDG_RUNTIME_DIR"
      else "audio_group_id")
  {
    PulseTemplateFields();
    match Format(PulseTemplate, subs)
    case Success(s) => Success(s)
    case Failure(k) => Failure(MissingSubstitution(k))
  }



  /** With every key present, the arguments are the formatted template. */
  lemma {:induction false} PulseDockerArgsIsFormat(subs: Subs)
    requires PulseKeys <= subs.Keys
    ensures Format(PulseTemplate, subs).Success?
    ensures PulseDockerArgs(subs) == Success(Format(PulseTemplate, subs).value)
  {
    PulseTemplateFields();
  }

  lemma {:induction false} RunMountText(subs: Subs)
    requires PulseKeys <= subs.Keys
    ensures var u := Render(subs["user_id"]);
      Format(RunMountPieces, subs) == Success("-v /run/user/" + u + "/pulse:/run/user/" + u + "/pulse")
  {
    FormatFive("-v /run/user/", "user_id", "/pulse:/run/user/", "user_id", "/pulse", subs);
  }

  lemma {:induction false} ServerText(subs: Subs)
    requires PulseKeys <= subs.Keys
    ensures var x := Render(subs["XDG_RUNTIME_DIR"]);
      Format(ServerPieces, subs) == Success("-e PULSE_SERVER=unix:" + x + "/pulse/native")
  {
    FormatThree("-e PULSE_SERVER=unix:", "XDG_RUNTIME_DIR", "/pulse/native", subs);
  }

  lemma {:induction false} NativeMountText(subs: Subs)
    requires PulseKeys <= subs.Keys
    ensures var x := Render(subs["XDG_RUNTIME_DIR"]);
      Format(NativeMountPieces, subs) == Success("-v " + x + "/pulse/native:" + x + "/pulse/native")
  {
    FormatFive("-v ", "XDG_RUNTIME_DIR", "/pulse/native:", "XDG_RUNTIME_DIR", "/pulse/native", subs);
  }

  lemma {:induction false} GroupAddText(subs: Subs)
    requires PulseKeys <= subs.Keys
    ensures Format(GroupAddPieces, subs) == Success("--group-add " + Render(subs["audio_group_id"]))
  {
    FormatTextField("--group-add ", "audio_group_id", subs);
  }

  /** Formatting a template followed by literal text appends the text. */
  lemma {:induction false} FormatThenText(t: seq<Piece>, text: string, subs: Subs)
    requires Format(t, subs).Success?
    ensures Format(t + [Text(text)], subs) == Success(Format(t, subs).value + text)
  {
    FormatOne(Text(text), subs);
    FormatAppend(t, [Text(text)], subs);
  }

  /**
   * With `U`, `X` and `G` the rendered `user_id`, `XDG_RUNTIME_DIR` and `audio_group_id`,
   * the pulse-audio arguments are exactly the source's fixed string: the pulse directory
   * of `/run/user/U` mounted at the same path, the sound device, PULSE_SERVER pointing
   * at the native socket under `X`, that socket mounted at the same path, and group `G`
   * added, in this order and with this spacing.
   */
  lemma {:induction false} PulseDockerArgsText(subs: Subs)
    requires PulseKeys <= subs.Keys
    ensures
      var u, x, g := Render(subs["user_id"]), Render(subs["XDG_RUNTIME_DIR"]), Render(subs["audio_group_id"]);
      PulseDockerArgs(subs) == Success(
        " " + ("-v /run/user/" + u + "/pulse:/run/user/" + u + "/pulse")
        + " " + "--device /dev/snd"
        + "  " + ("-e PULSE_SERVER=unix:" + x + "/pulse/native")
        + " " + ("-v " + x + "/pulse/native:" + x + "/pulse/native")
        + " " + ("--group-add " + g)
        + " ")
  {
    var u, x, g := Render(subs["user_id"]), Render(subs["XDG_RUNTIME_DIR"]), Render(subs["audio_group_id"]);
    var t1 := [Text(" ")] + RunMountPieces;
    var v1 := " " + ("-v /run/user/" + u + "/pulse:/run/user/" + u + "/pulse");
    assert Format(t1, subs) == Success(v1) by {
      FormatOne(Text(" "), subs);
      RunMountText(subs);
      FormatAppend([Text(" ")], RunMountPieces, subs);
    }
    var t2 := t1 + [Text(" ")] + DevicePieces + [Text("  ")];
    var v2 := v1 + " " + "--device /dev/snd" + "  ";
    assert Format(t2, subs) == Success(v2) by {
      FormatThenText(t1, " ", subs);
      FormatThenText(t1 + [Text(" ")], "--device /dev/snd", subs);
      FormatThenText(t1 + [Text(" ")] + DevicePieces, "  ", subs);
    }
    var t3 := t2 + ServerPieces + [Text(" ")];
    var v3 := v2 + ("-e PULSE_SERVER=unix:" + x + "/pulse/native") + " ";
    assert Format(t3, subs) == Success(v3) by {
      ServerText(subs);
      FormatAppend(t2, ServerPieces, subs);
      FormatThenText(t2 + ServerPieces, " ", subs);
    }
    var t4 := t3 + NativeMountPieces + [Text(" ")];
    var v4 := v3 + ("-v " + x + "/pulse/native:" + x + "/pulse/native") + " ";
    assert Format(t4, subs) == Success(v4) by {
      NativeMountText(subs);
      FormatAppend(t3, NativeMountPieces, subs);
      FormatThenText(t3 + NativeMountPieces, " ", subs);
    }
    var t5 := t4 + GroupAddPieces + [Text(" ")];
    assert Format(t5, subs) == Success(v4 + ("--group-add " + g) + " ") by {
      GroupAddText(subs);
      FormatAppend(t4, GroupAddPieces, subs);
      FormatThenText(t4 + GroupAddPieces, " ", subs);
    }
    PulseDockerArgsIsFormat(subs);
  }

  /**
   * The arguments contain all five pulse-audio flags, with `U`, `X` and `G` as above.
   */
  lemma {:induction false} PulseDockerArgsContents(subs: Subs)
    requires PulseKeys <= subs.Keys
    ensures PulseDockerArgs(subs).Success?
    ensures
      var args := PulseDockerArgs(subs).value;
      var u, x, g := Render(subs["user_id"]), Render(subs["XDG_RUNTIME_DIR"]), Render(subs["audio_group_id"]);
      && Contains(args, "-v /run/user/" + u + "/pulse:/run/user/" + u + "/pulse")
      && Contains(args, "--device /dev/snd")
      && Contains(args, "-e PULSE_SERVER=unix:" + x + "/pulse/native")
      && Contains(args, "-v " + x + "/pulse/native:" + x + "/pulse/native")
      && Contains(args, "--group-add " + g)
  {
    PulseRunMount(subs);
    PulseDevice(subs);
    PulseServer(subs);
    PulseNativeMount(subs);
    PulseGroupAdd(subs);
  }

  /** The arguments mount `/run/user/U/pulse` at the same path. */
  lemma {:induction false} PulseRunMount(subs: Subs)
    requires PulseKeys <= subs.Keys
    ensures PulseDockerArgs(subs).Success?
    ensures var u := Render(subs["user_id"]);
      Contains(PulseDockerArgs(subs).value, "-v /run/user/" + u + "/pulse:/run/user/" + u + "/pulse")
  {
    var u, x, g := Render(subs["user_id"]), Render(subs["XDG_RUNTIME_DIR"]), Render(subs["audio_group_id"]);
    var r := "-v /run/user/" + u + "/pulse:/run/user/" + u + "/pulse";
    PulseDockerArgsText(subs);
    ContainsAtEnd(" ", r);
    ContainsInLeft(" " + r, " ", r);
    ContainsInLeft(" " + r + " ", "--device /dev/snd", r);
    ContainsInLeft(" " + r + " " + "--device /dev/snd", "  ", r);
    var v := " " + r + " " + "--device /dev/snd" + "  ";
    ContainsInLeft(v, "-e PULSE_SERVER=unix:" + x + "/pulse/native", r);
    PulseArgsAfterServer(subs, v, r);
  }

  /** The arguments pass the sound device `/dev/snd`. */
  lemma {:induction false} PulseDevice(subs: Subs)
    requires PulseKeys <= subs.Keys
    ensures PulseDockerArgs(subs).Success?
    ensures Contains(PulseDockerArgs(subs).value, "--device /dev/snd")
  {
    var u, x, g := Render(subs["user_id"]), Render(subs["XDG_RUNTIME_DIR"]), Render(subs["audio_group_id"]);
    var d := "--device /dev/snd";
    var w := " " + ("-v /run/user/" + u + "/pulse:/run/user/" + u + "/pulse") + " ";
    PulseDockerArgsText(subs);
    ContainsAtEnd(w, d);
    ContainsInLeft(w + d, "  ", d);
    var v := w + d + "  ";
    ContainsInLeft(v, "-e PULSE_SERVER=unix:" + x + "/pulse/native", d);
    PulseArgsAfterServer(subs, v, d);
  }

  /**
   * A text found in the arguments up to the PULSE_SERVER flag is found in the whole
   * arguments, which go on with the native-socket mount and the group.
   */
  lemma {:induction false} PulseArgsAfterServer(subs: Subs, v: string, part: string)
    requires PulseKeys <= subs.Keys
    requires var x := Render(subs["XDG_RUNTIME_DIR"]);
      Contains(v + ("-e PULSE_SERVER=unix:" + x + "/pulse/native"), part)
    requires var u := Render(subs["user_id"]);
      v == " " + ("-v /run/user/" + u + "/pulse:/run/user/" + u + "/pulse") + " " + "--device /dev/snd" + "  "
    ensures PulseDockerArgs(subs).Success?
    ensures Contains(PulseDockerArgs(subs).value, part)
  {
    var x, g := Render(subs["XDG_RUNTIME_DIR"]), Render(subs["audio_group_id"]);
    var v1 := v + ("-e PULSE_SERVER=unix:" + x + "/pulse/native");
    PulseDockerArgsText(subs);
    ContainsInLeft(v1, " ", part);
    PulseArgsAfterNativeMount(subs, v1 + " ", part);
  }

  /** The same for a text found in the arguments up to the native-socket mount. */
  lemma {:induction false} PulseArgsAfterNativeMount(subs: Subs, v: string, part: string)
    requires PulseKeys <= subs.Keys
    requires var x := Render(subs["XDG_RUNTIME_DIR"]);
      Contains(v, part) || Contains(v + ("-v " + x + "/pulse/native:" + x + "/pulse/native"), part)
    requires var u, x := Render(subs["user_id"]), Render(subs["XDG_RUNTIME_DIR"]);
      v == " " + ("-v /run/user/" + u + "/pulse:/run/user/" + u + "/pulse") + " " + "--device /dev/snd"
        + "  " + ("-e PULSE_SERVER=unix:" + x + "/pulse/native") + " "
    ensures PulseDockerArgs(subs).Success?
    ensures Contains(PulseDockerArgs(subs).value, part)
  {
    var x, g := Render(subs["XDG_RUNTIME_DIR"]), Render(subs["audio_group_id"]);
    var n := "-v " + x + "/pulse/native:" + x + "/pulse/native";
    if Contains(v, part) {
      ContainsInLeft(v, n, part);
    }
    PulseDockerArgsText(subs);
    ContainsInLeft(v + n, " ", part);
    ContainsInLeft(v + n + " ", "--group-add " + g, part);
    ContainsInLeft(v + n + " " + ("--group-add " + g), " ", part);
  }

  /** The arguments set PULSE_SERVER to the native socket under `X`. */
  lemma {:induction false} PulseServer(subs: Subs)
    requires PulseKeys <= subs.Keys
    ensures PulseDockerArgs(subs).Success?
    ensures var x := Render(subs["XDG_RUNTIME_DIR"]);
      Contains(PulseDockerArgs(subs).value, "-e PULSE_SERVER=unix:" + x + "/pulse/native")
  {
    var u, x := Render(subs["user_id"]), Render(subs["XDG_RUNTIME_DIR"]);
    var v := " " + ("-v /run/user/" + u + "/pulse:/run/user/" + u + "/pulse") + " " + "--device /dev/snd" + "  ";
    ContainsAtEnd(v, "-e PULSE_SERVER=unix:" + x + "/pulse/native");
    PulseArgsAfterServer(subs, v, "-e PULSE_SERVER=unix:" + x + "/pulse/native");
  }

  /** The arguments mount the native socket under `X` at the same path. */
  lemma {:induction false} PulseNativeMount(subs: Subs)
    requires PulseKeys <= subs.Keys
    ensures PulseDockerArgs(subs).Success?
    ensures var x := Render(subs["XDG_RUNTIME_DIR"]);
      Contains(PulseDockerArgs(subs).value, "-v " + x + "/pulse/native:" + x + "/pulse/native")
  {
    var u, x := Render(subs["user_id"]), Render(subs["XDG_RUNTIME_DIR"]);
    var v := " " + ("-v /run/user/" + u + "/pulse:/run/user/" + u + "/pulse") + " " + "--device /dev/snd"
      + "  " + ("-e PULSE_SERVER=unix:" + x + "/pulse/native") + " ";
    var n := "-v " + x + "/pulse/native:" + x + "/pulse/native";
    ContainsAtEnd(v, n);
    PulseArgsAfterNativeMount(subs, v, n);
  }

  /** The arguments add the container user to the audio group `G`. */
  lemma {:induction false} PulseGroupAdd(subs: Subs)
    requires PulseKeys <= subs.Keys
    ensures PulseDockerArgs(subs).Success?
    ensures Contains(PulseDockerArgs(subs).value, "--group-add " + Render(subs["audio_group_id"]))
  {
    var u, x, g := Render(subs["user_id"]), Render(subs["XDG_RUNTIME_DIR"]), Render(subs["audio_group_id"]);
    var v := " " + ("-v /run/user/" + u + "/pulse:/run/user/" + u + "/pulse") + " " + "--device /dev/snd"
      + "  " + ("-e PULSE_SERVER=unix:" + x + "/pulse/native")
      + " " + ("-v " + x + "/pulse/native:" + x + "/pulse/native") + " ";
    PulseDockerArgsText(subs);
    ContainsAtEnd(v, "--group-add " + g);
    ContainsInLeft(v + ("--group-add " + g), " ", "--group-add " + g);
  }

  /** The pulse-audio extension, with its lazily filled substitution dict. */
  class PulseAudio {
    const name: string
    var envSubs: Option<Subs>
    /** How many times the host has been read. */
    ghost var hostReads: nat

    ghost predicate Valid()
      reads this
    {
      envSubs.Some? ==> envSubs.value.Keys == PulseKeys
    }

    constructor ()
      ensures Valid()
      ensures name == Name(PulseKind) && envSubs == None && hostReads == 0
    {
      envSubs := None;
      name := Name(PulseKind);
      hostReads := 0;
    }

    /**
     * The substitution dict: read from the host on the first successful call, cached
     * afterwards. The dict is built aside and stored only once complete, so a missing
     * `audio` group raises and leaves the cache empty.
     */
    method GetEnvironmentSubs(host: Host) returns (r: Result<Subs, Error>)
      requires Valid()
      modifies this
      ensures Valid()
      ensures (envSubs, r) == CachedCall(old(envSubs), PulseSubs(host))
      ensures hostReads == old(hostReads) + (if Truthy(old(envSubs)) then 0 else 1)
    {
      if !Truthy(envSubs) {
        hostReads := hostReads + 1;
        var subs: Subs := map[];
        subs := subs["user_id" := Int(host.uid)];
        subs := subs["XDG_RUNTIME_DIR" := GetEnv(host, "XDG_RUNTIME_DIR")];
        if "audio" !in host.groups {
          return Failure(GroupNotFound("audio"));
        }
        subs := subs["audio_group_id" := Int(host.groups["audio"])];
        envSubs := Some(subs);
      }
      r := Success(envSubs.value);
    }

    /** The docker arguments: the pulse-audio template formatted with the cached dict. */
    method GetDockerArgs(host: Host) returns (args: Result<string, Error>)
      requires Valid()
      modifies this
      ensures Valid()
      ensures (envSubs, args.Success?) == (CachedCall(old(envSubs), PulseSubs(host)).0, Truthy(old(envSubs)) || "audio" in host.groups)
      ensures args.Success? ==> envSubs.Some? && args == PulseDockerArgs(envSubs.value)
      ensures args.Failure? ==> args.error == GroupNotFound("audio")
      ensures hostReads == old(hostReads) + (if Truthy(old(envSubs)) then 0 else 1)
    {
      var subs := GetEnvironmentSubs(host);
      match subs
      case Failure(e) =>
        args := Failure(e);
      case Success(m) =>
        PulseCacheComplete(old(envSubs), host);
        args := PulseDockerArgs(m);
    }
  }

  /**
   * Two requests for the pulse-audio arguments on one extension: the first succeeds
   * exactly when the `audio` group exists, and once it has, the second returns the
   * same text without consulting the (possibly changed) host.
   */
  method PulseArgsTwice(host: Host, later: Host) returns (first: Result<string, Error>, second: Result<string, Error>)
    ensures first.Success? <==> "audio" in host.groups
    ensures first.Failure? ==> first.error == GroupNotFound("audio")
    ensures first.Success? ==> second == first
  {
    var pulse := new PulseAudio();
    first := pulse.GetDockerArgs(host);
    second := pulse.GetDockerArgs(later);
    assert first.Success? ==> pulse.hostReads == 1;
  }

  // ============================================================ home directory

  /**
   * The home-directory docker arguments: one volume whose source and destination are
   * both the user's home directory.
   */
  function HomeDirDockerArgs(home: string): (args: string)
    ensures |args| == 2 * |home| + 6
    ensures args[..4] == " -v " && args[|args| - 1] == ' '
    ensures args[4..4 + |home|] == home
    ensures args[4 + |home|] == ':'
    ensures args[5 + |home|..|args| - 1] == home
  {
    " -v " + home + ":" + home + " "
  }

  /** The arguments determine the home directory they mount. */
  lemma {:induction false} HomeDirArgsDetermineHome(home1: string, home2: string)
    requires HomeDirDockerArgs(home1) == HomeDirDockerArgs(home2)
    ensures home1 == home2
  {
  }

  // ============================================================ user

  /** The user-identity extension, with its lazily filled substitution dict. */
  class User {
    const name: string
    var envSubs: Option<Subs>
    /** How many times the host has been read. */
    ghost var hostReads: nat

    ghost predicate Valid()
      reads this
    {
      envSubs.Some? ==> envSubs.value.Keys == UserKeys
    }

    constructor ()
      ensures Valid()
      ensures name == Name(UserKind) && envSubs == None && hostReads == 0
    {
      envSubs := None;
      name := Name(UserKind);
      hostReads := 0;
    }

    /**
     * The substitution dict: on the first successful call, the password entry of the
     * current uid; cached afterwards. A missing entry raises and caches nothing.
     */
    method GetEnvironmentSubs(host: Host) returns (r: Result<Subs, Error>)
      requires Valid()
      modifies this
      ensures Valid()
      ensures (envSubs, r) == CachedCall(old(envSubs), UserSubs(host))
      ensures hostReads == old(hostReads) + (if Truthy(old(envSubs)) then 0 else 1)
    {
      if !Truthy(envSubs) {
        hostReads := hostReads + 1;
        if host.uid !in host.passwd {
          return Failure(UidNotFound(host.uid));
        }
        var info := host.passwd[host.uid];
        envSubs := Some(map k | k in UserKeys :: PasswdField(info, k));
      }
      r := Success(envSubs.value);
    }
  }

  // ============================================================ environment

  /** What the environment extension adds: ` -e <quoted entry>` for each entry, in order. */
  function EnvFlags(env: seq<string>, quote: string -> string): (flags: string)
    ensures (flags == "") <==> (env == [])
  {
    if env == [] then "" else " -e " + quote(env[0]) + EnvFlags(env[1..], quote)
  }

  /** The flags of consecutive entry lists are concatenated in the same order. */
  lemma {:induction false} EnvFlagsAppend(a: seq<string>, b: seq<string>, quote: string -> string)
    ensures EnvFlags(a + b, quote) == EnvFlags(a, quote) + EnvFlags(b, quote)
  {
    if a == [] {
      assert a + b == b;
    } else {
      assert (a + b)[1..] == a[1..] + b;
      EnvFlagsAppend(a[1..], b, quote);
    }
  }

  /**
   * Entry `k` contributes exactly one ` -e <quoted entry>`, after the flags of every
   * entry before it and before the flags of every entry after it.
   */
  lemma {:induction false} EnvFlagsAt(env: seq<string>, quote: string -> string, k: nat)
    requires k < |env|
    ensures EnvFlags(env, quote) == EnvFlags(env[..k], quote) + " -e " + quote(env[k]) + EnvFlags(env[k + 1..], quote)
  {
    var front, rest := env[..k], env[k..];
    var x, y, z := EnvFlags(front, quote), " -e " + quote(env[k]), EnvFlags(env[k + 1..], quote);
    assert EnvFlags(env, quote) == x + EnvFlags(rest, quote) by {
      assert front + rest == env;
      EnvFlagsAppend(front, rest, quote);
    }
    assert EnvFlags(rest, quote) == y + z by {
      EnvFlagsCons(rest, quote);
      assert rest[0] == env[k] && rest[1..] == env[k + 1..];
    }
    assert x + (y + z) == x + y + z;
  }

  /** The first entry's flag comes first. */
  lemma {:induction false} EnvFlagsCons(env: seq<string>, quote: string -> string)
    requires env != []
    ensures EnvFlags(env, quote) == " -e " + quote(env[0]) + EnvFlags(env[1..], quote)
  {
  }

  /** The list the source builds after its leading empty string, joined with spaces. */
  lemma {:induction false} PrefixedEnvEntries(env: seq<string>, quote: string -> string, entries: seq<string>)
    requires |entries| == |env|
    requires forall k :: 0 <= k < |env| ==> entries[k] == "-e " + quote(env[k])
    ensures Prefixed(" ", entries) == EnvFlags(env, quote)
  {
    if env != [] {
      PrefixedEnvEntries(env[1..], quote, entries[1..]);
      assert " " + entries[0] == " -e " + quote(env[0]);
    }
  }

  /**
   * The environment extension's docker arguments: a list seeded with one empty string,
   * `-e <quoted entry>` appended per entry, joined with spaces. The result is empty for
   * no entries and otherwise ` -e <q0> -e <q1> ...`.
   */
  method EnvironmentDockerArgs(env: seq<string>, quote: string -> string) returns (args: string)
    ensures args == EnvFlags(env, quote)
  {
    var parts := [""];
    for i := 0 to |env|
      invariant |parts| == i + 1 && parts[0] == ""
      invariant forall k :: 0 <= k < i ==> parts[k + 1] == "-e " + quote(env[k])
    {
      parts := parts + ["-e " + quote(env[i])];
    }
    args := Join(" ", parts);
    assert parts == [""] + parts[1..];
    JoinFirst(" ", "", parts[1..]);
    PrefixedEnvEntries(env, quote, parts[1..]);
  }
}
