# rocker extensions — a Dafny model

This project models the core of `src/rocker/extensions.py` from rocker, a tool that
builds and runs Docker images with optional extensions. Each extension has a name,
from which its command-line flag is derived. Some extensions also contribute extra
`docker run` arguments. The dev-helpers, pulse-audio and user extensions keep a
substitution dict (`_env_subs`). It is read from the host on the first call of
`get_environment_subs` and returned from the cache on every later call.

Files:

- `wrappers.dfy`: `Option` and `Result`.
- `pytext.dfy` (module `PyText`): the Python string behaviour the file relies on.
  This covers `str()` of ints and `None`, `template % dict` with `%(key)s`
  conversions (KeyError on the first missing key), one-character `str.replace`,
  `str.join` and substring tests.
- `extensions.dfy` (module `Extensions`): flag names, the host readings, the
  substitution dicts, the lazy cache, the three extension classes that own a cache,
  and the docker-argument builders of the pulse-audio, home-directory and
  environment extensions.

Modelling choices:

- Everything read from the operating system is one `Host` value passed to the
  methods: `os.getuid()`, `getpass.getuser()`, the environment, the group database,
  the password database and `Path.home()`.
- Each cached class carries a ghost counter `hostReads`. Its methods state that the
  host is read exactly when the cache is not truthy. So the first successful call
  reads it once and later calls never do.
- `if not self._env_subs` is modelled by `Truthy`: `None` and the empty dict are
  false. Every dict the code caches is non-empty, so a cached dict is always reused.
- `os.getenv` of an unset variable is `NoneValue`. `%s` renders it as `None`.
- `shlex.quote` is a parameter `quote: string -> string` of the environment builder.
  The properties about it hold whatever the quoting does.
- The environment extension keeps the source's output exactly, including the leading
  space produced by the empty first list element.

## Model

| member | source | states |
|---|---|---|
| `Extensions.NameToArgument` | src/rocker/extensions.py:27-28 | the flag is `--` then the name, two longer, with each `_` at the same offset turned into `-` and every other character kept; no `_` remains |
| `Extensions.Name` | src/rocker/extensions.py:34-35 | `get_name` of each extension (here `dev_helpers`; likewise lines 65-66, 102-103, 120-121 and 149-150) is a non-empty run of lower-case letters and `_` |
| `Extensions.Flag` | src/rocker/extensions.py:58 | the flag each `register_arguments` adds (here for dev-helpers; likewise lines 95, 113, 142 and the literal `--env` at 167) starts with `--` followed by lower-case letters and `-` only |
| `Extensions.FlagsFollowNames` | src/rocker/extensions.py:165-171 | the flag each extension registers is the one derived from its `get_name`, including the literal `--env`; `dev_helpers` gives `--dev-helpers` |
| `Extensions.FlagsDistinct` | src/rocker/extensions.py:56-60 | the five extensions register pairwise different flags |
| `PyText.ReplaceChar` | src/rocker/extensions.py:28 | `str.replace` of one character: same length, each occurrence replaced, every other character kept in place |
| `Extensions.Truthy` | src/rocker/extensions.py:43 | `not self._env_subs` is false exactly for a dict with at least one key (the same test at lines 74 and 124) |
| `Extensions.PasswdField` | src/rocker/extensions.py:128 | `getattr(userinfo, 'pw_' + k)` is an int for `uid` and `gid` and a string for the other four keys |
| `Extensions.GetEnv` | src/rocker/extensions.py:77 | `os.getenv` gives the variable's value when set and `None` exactly when unset |
| `Extensions.DevHelpersSubs` | src/rocker/extensions.py:43-46 | the dev-helpers dict has exactly the keys `user_id` and `username`, holding the uid and the user name |
| `Extensions.PulseSubs` | src/rocker/extensions.py:74-78 | the pulse dict fails with a missing group exactly when `audio` is absent; otherwise it has exactly `user_id`, `XDG_RUNTIME_DIR` and `audio_group_id` with the uid, the environment value and the group's gid |
| `Extensions.UserSubs` | src/rocker/extensions.py:124-129 | the user dict fails exactly when the uid has no password entry; otherwise its keys are exactly `name, uid, gid, gecos, dir, shell` and each value is the entry's matching `pw_` field |
| `Extensions.CachedCall` | src/rocker/extensions.py:42-47 | a truthy cache is returned unchanged; otherwise the call's outcome is the fresh reading; a success is what ends up cached; a failure leaves the cache as it was |
| `Extensions.CachedCallIdempotent` | src/rocker/extensions.py:123-130 | after a successful call, every later call returns the same dict and leaves the cache alone, whatever the host now says, because fresh dicts are non-empty |
| `Extensions.PulseCallAsWritten` | src/rocker/extensions.py:73-79 | as written, a missing `audio` group raises but leaves the two-key dict `{user_id, XDG_RUNTIME_DIR}` in the cache |
| `Extensions.MissingAudioGroupPoisonsCache` | src/rocker/extensions.py:74-91 | as written, after the failed first call the second call returns a dict without `audio_group_id`, and the docker arguments then raise KeyError('audio_group_id') |
| `Extensions.PulseCacheComplete` | src/rocker/extensions.py:73-91 | with the correction, the cache is empty or holds all three keys, a success always formats, and a failure is the missing `audio` group with the cache unchanged |
| `Extensions.DevHelpers.constructor` | src/rocker/extensions.py:37-39 | a new extension has the name `dev_helpers`, an empty cache and no host reads |
| `Extensions.DevHelpers.GetEnvironmentSubs` | src/rocker/extensions.py:42-47 | the returned dict and the new cache are `CachedCall` of the old cache and the host's dict; the host is read once when the cache was empty and never otherwise; the cache keeps exactly the two keys |
| `PyText.Render` | src/rocker/extensions.py:89-91 | `%s` prints a string as itself, `None` as `None`, and an int as at least one decimal digit, with no leading zero except for `0` itself, that read back to it, behind a `-` when negative |
| `PyText.DigitsRoundTrip` | src/rocker/extensions.py:89-91 | the decimal digits printed for a natural number read back to that number |
| `PyText.Format` | src/rocker/extensions.py:89-91 | `template % dict` succeeds exactly when every conversion's key is present; otherwise the error names a missing key, the leftmost one |
| `PyText.FormatAppend` | src/rocker/extensions.py:89-90 | formatting two adjacent template parts concatenates their results, as the two adjacent literals of the template do |
| `Extensions.PulseDockerArgs` | src/rocker/extensions.py:89-91 | the pulse arguments exist exactly when the dict has the three keys; otherwise KeyError of the first missing one in template order |
| `Extensions.PulseTemplateFields` | src/rocker/extensions.py:89-90 | the template has 22 pieces; its conversions are `user_id` (first at piece 2), then `XDG_RUNTIME_DIR` (first at piece 10), then `audio_group_id` (piece 20), and no other keys |
| `Extensions.PulseDockerArgsText` | src/rocker/extensions.py:89-91 | with every key present, the arguments are exactly ` -v /run/user/U/pulse:/run/user/U/pulse --device /dev/snd  -e PULSE_SERVER=unix:X/pulse/native -v X/pulse/native:X/pulse/native --group-add G `, in this order and with this spacing (the two spaces come from the two adjacent literals) |
| `Extensions.PulseDockerArgsContents` | src/rocker/extensions.py:89-90 | the arguments contain all five pulse flags, with `U`, `X` and `G` the rendered map entries |
| `Extensions.PulseRunMount` | src/rocker/extensions.py:89 | the arguments contain `-v /run/user/U/pulse:/run/user/U/pulse` |
| `Extensions.PulseDevice` | src/rocker/extensions.py:89 | the arguments contain `--device /dev/snd` |
| `Extensions.PulseServer` | src/rocker/extensions.py:90 | the arguments contain `-e PULSE_SERVER=unix:X/pulse/native` |
| `Extensions.PulseNativeMount` | src/rocker/extensions.py:90 | the arguments contain `-v X/pulse/native:X/pulse/native` |
| `Extensions.PulseGroupAdd` | src/rocker/extensions.py:90 | the arguments contain `--group-add G` |
| `Extensions.PulseAudio.constructor` | src/rocker/extensions.py:68-70 | a new extension has the name `pulse`, an empty cache and no host reads |
| `Extensions.PulseAudio.GetEnvironmentSubs` | src/rocker/extensions.py:73-79 | the outcome and the new cache are `CachedCall` of the old cache and `PulseSubs`; the host is read exactly when the cache was empty; the cache is empty or complete (corrected; see Findings) |
| `Extensions.PulseAudio.GetDockerArgs` | src/rocker/extensions.py:88-91 | the arguments are the template formatted with the cached dict; they fail only with the missing `audio` group, while the cache is still empty (corrected; see Findings) |
| `Extensions.PulseArgsTwice` | src/rocker/extensions.py:88-91 | on one extension the first request succeeds exactly when `audio` exists, and then a second request with any host returns the same text |
| `Extensions.HomeDirDockerArgs` | src/rocker/extensions.py:108-109 | the arguments are one `-v` volume whose source and destination are both the home path, surrounded by single spaces |
| `Extensions.HomeDirArgsDetermineHome` | src/rocker/extensions.py:108-109 | different home directories give different arguments |
| `Extensions.User.constructor` | src/rocker/extensions.py:132-134 | a new extension has the name `user`, an empty cache and no host reads |
| `Extensions.User.GetEnvironmentSubs` | src/rocker/extensions.py:123-130 | the outcome and the new cache are `CachedCall` of the old cache and `UserSubs`; the host is read exactly when the cache was empty; the cache holds exactly the six keys |
| `Extensions.EnvFlags` | src/rocker/extensions.py:158-163 | the environment arguments are empty exactly when there are no entries |
| `Extensions.EnvFlagsAppend` | src/rocker/extensions.py:160-161 | the arguments for two consecutive entry lists are the first list's followed by the second's, so input order is kept |
| `Extensions.EnvFlagsAt` | src/rocker/extensions.py:160-163 | entry `k` contributes exactly one ` -e <quoted entry>`, after the segments of the entries before it and before those after it |
| `PyText.Join` | src/rocker/extensions.py:163 | `sep.join(parts)` of one part is that part, and its length is the parts' total length plus one separator between each two parts |
| `PyText.JoinFirst` | src/rocker/extensions.py:163 | joining a list that starts with `x` gives `x` and then every other part, each preceded by the separator |
| `Extensions.EnvironmentDockerArgs` | src/rocker/extensions.py:158-163 | the list seeded with `''`, extended with `-e <quoted>` per entry and joined by spaces equals ` -e q0 -e q1 ...`, or `''` for no entries |

## Findings

| source | as written | input that shows it | evidently intended | confidence | as-written member | corrected member |
|---|---|---|---|---|---|---|
| src/rocker/extensions.py:74-79 | `get_environment_subs` stores `{}` in `_env_subs` before filling it. When `grp.getgrnam('audio')` raises, the field keeps a truthy dict with `user_id` and `XDG_RUNTIME_DIR` only. The next call returns that dict as if complete, and `get_docker_args` raises KeyError('audio_group_id') | a host with no `audio` group; call `get_environment_subs` twice (`MissingAudioGroupPoisonsCache`) | cache the dict only once it is complete, so every call fails the same way until the group exists, and a cached dict always has the three keys (`PulseCacheComplete`) | high; not executed | `Extensions.PulseCallAsWritten` | `Extensions.PulseAudio.GetEnvironmentSubs` |

## Left out

- `register_arguments` of every extension: it only adds a flag to an argparse parser. The flag string it uses is modelled (`Flag`); the parser and the help texts are not.
- `get_snippet`: it reads a packaged template with `pkgutil` and expands it with the `em` templating engine, whose behaviour is not part of this model.
- `get_preamble` of the dev-helpers and pulse-audio extensions, and `get_snippet` of the environment extension: each returns the empty string.
- The operating-system calls are not modelled; their results are fields of `Host`. This covers `os.getuid`, `getpass.getuser`, `grp.getgrnam`, `pwd.getpwuid`, `os.getenv` and `Path.home`. `getpass.getuser` is taken to succeed, and so is `Path.home()` (line 109), which raises RuntimeError when no home directory can be determined.
- `HomeDirDockerArgs`: `Path.home()` is called twice in the source; the model takes one home path, so both calls are assumed to agree.
- `EnvironmentDockerArgs`: `shlex.quote` is a parameter. Whether a quoted entry is one safe shell word is not modelled.
- `EnvironmentDockerArgs`: takes the entry list itself rather than the `cli_args` dict. The case where `cli_args['env']` is `None` is not modelled.
- The `RockerExtension` base class (from `.core`) is not part of this model.
- The unused imports `subprocess` and `sys` are not modelled.
