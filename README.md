# EC2 self-hosted runner launcher: user-data script and request model

This project models the EC2 part of a GitHub Action that starts an EC2
instance, registers a self-hosted GitHub Actions runner on it, and later
terminates the instance. It covers `src/aws.js` of the repository:

- `buildUserDataScript`: the boot script handed to the instance.
  - For the tag `win-x64` it is a PowerShell block.
  - For `linux-x64`, `linux-arm` and `linux-arm64` it is a bash script.
  - For any other tag it is the empty list.
  - The script either changes into an existing runner home directory, or
    downloads and unpacks runner release 2.283.2. It then configures the
    runner against the repository and starts it.
- `startEc2Instance`: builds the `RunInstances` request one guarded field at
  a time, sends it, and returns the id of the first instance launched.
- `terminateEc2Instance` and `waitForInstanceRunning`: the one-id requests
  they send, and their error handling.

The modules are:

- `Wrappers`: `Option` and `Result`.
- `Text`: `Join` (what `Array.prototype.join` does) and `Split`, its
  inverse. Lemmas about the pair cut the joined script back into its lines
  and a command line back into its space-separated words.
- `Config`: the configuration as an explicit record. An absent string input
  is the empty string, so a JavaScript-truthy string is a non-empty one.
- `UserDataScript`: the script in two forms. `Script` is the specification,
  one list per branch. `BuildUserDataScript` appends line after line, as the
  source pushes onto its array. The properties of the script are proved as
  lemmas.
- `Aws`: the launch request, the terminate and wait requests, and the
  handling of the provider's answer.

The EC2 client's calls are passed in as functions from the request to the
provider's answer, and so is the base64 encoder.

The `params` object of `startEc2Instance` is not changed after it is built;
`core.info` and `ec2.runInstances` (src/aws.js:106, 109) only read it. It is
modelled as a record value that `BuildLaunchRequest` replaces field by
field, under the same guards and in the same order as the source.

An unsupported OS tag is only logged (src/aws.js:57): `buildUserDataScript`
returns an empty list and `startEc2Instance` still launches, with the base64
encoding of the empty string as user data. `Aws.EncodedUserData` states that
outcome.

## Model

| member | source | states |
|---|---|---|
| UserDataScript.Script | src/aws.js:8-61 | For `win-x64`: 4 lines when a home directory is set, else 6. The first line is `<powershell>`, the last is `</powershell>`, and the line before it is the `./config.cmd` line. For the three Linux tags: 6 or 8 lines. The first is `#!/bin/bash`, and the last four are the two `export` lines, the `./config.sh` line and `./run.sh`. Any other tag gives the empty list. |
| UserDataScript.BuildUserDataScript | src/aws.js:8-61 | Pushing the lines branch by branch yields exactly the `Script` specification. |
| UserDataScript.SetupFollowsHeader | src/aws.js:16-25 | With a truthy home directory, the line after the header is `cd "<dir>"`. Otherwise the three lines after it are the mkdir/cd, download and unpack lines of the platform (also lines 38-47). |
| UserDataScript.WindowsConfigArguments | src/aws.js:29 | With no space in the values, the `./config.cmd` line splits into the words `--url https://github.com/<owner>/<repo> --token <token> --name <os>-<label> --labels <label> --unattended --runasservice`, in that order. |
| UserDataScript.LinuxConfigArguments | src/aws.js:53 | With no space in the values, the `./config.sh` line splits into the words `--url <repo url> --name <os>-<label> --token <token> --labels <label>`, in that order. |
| UserDataScript.ValuesInterpolatedVerbatim | src/aws.js:18 | Whatever characters they hold, the repository URL, the token, the runner name `<os>-<label>` and the label occur unchanged in both configuration lines (lines 29 and 53). The home directory occurs unchanged inside `cd "…"`. Nothing is escaped. |
| UserDataScript.WindowsArchiveConsistent | src/aws.js:23-24 | The download line's words are `Invoke-WebRequest -Uri <release url> -OutFile <archive>`, and the unpack line's words are `Expand-Archive -Path <archive> -DestinationPath $PWD`. Both name the same `actions-runner-win-x64-2.283.2.zip`, although the saved name is written with a literal tag. That archive is the URL's last path segment. |
| UserDataScript.LinuxArchiveConsistent | src/aws.js:45-46 | The words are `curl -O -L <release url>` and `tar xzf ./<archive>`. The archive `actions-runner-<os>-2.283.2.tar.gz` is the URL's last path segment, so it is the file that `curl -O` saves. |
| UserDataScript.ReleaseUrlNamesArchive | src/aws.js:5 | The release URL of version 2.283.2 ends in `/` followed by the archive name for the tag and extension (the URLs of lines 23 and 45). |
| UserDataScript.SavedNameIsArchive | src/aws.js:23 | The hard-coded `-OutFile` name equals the archive name built from the tag `win-x64`. |
| UserDataScript.ScriptLinesRecoverable | src/aws.js:71 | When no interpolated value holds a line break, cutting the newline-joined script at line breaks gives back exactly its lines. For an unsupported tag the joined script is empty. |
| UserDataScript.ReleaseUrlAvoids | src/aws.js:23 | Helper of `ScriptLinesRecoverable` and of the archive lemmas: the release URL holds no space or line break unless the tag or the extension does (also line 45). |
| UserDataScript.SetupAvoidsNewline | src/aws.js:16-25 | Helper of `ScriptLinesRecoverable`: the setup lines hold no line break unless the home directory does (also lines 38-47). |
| UserDataScript.ConfigLineAvoidsNewline | src/aws.js:29 | Helper of `ScriptLinesRecoverable`: neither configuration line holds a line break unless an interpolated value does (also line 53). |
| Text.SplitJoin | src/aws.js:71 | `Split` inverts `join`: splitting the joined pieces returns them, when there is at least one and none holds the separator. |
| Text.JoinKeepsOut | src/aws.js:71 | A character other than the separator occurs in the joined text only if some piece holds it. |
| Text.JoinContainsPiece | src/aws.js:71 | Every piece occurs verbatim in the joined text. |
| Aws.LaunchRequestCharacterized | src/aws.js:68-104 | A request meets the field-by-field description exactly when it is `LaunchRequest`. The description: one instance minimum and maximum, the given user data, each optional field present iff its input is truthy and then holding that input, `SecurityGroupIds` the one-element list, and `TagSpecifications` passed through. So nothing else is set. |
| Aws.BuildLaunchRequest | src/aws.js:68-104 | Adding the fields one guarded `if` at a time yields `LaunchRequest`, which meets the field-by-field description. |
| Aws.EncodedUserData | src/aws.js:71 | For an unsupported tag, the user data is the encoding of the empty string. |
| Aws.UserDataRecoverable | src/aws.js:66-71 | For a decoder that inverts the encoder, and values without line breaks, decoding the request's user data and cutting it at line breaks gives the script's lines. |
| Aws.StartEc2Instance | src/aws.js:63-117 | The request sent is `LaunchRequest` over the encoded script. A provider error is passed on unchanged. Otherwise the result is the first instance's id, or `MissingInstance` when the answer lists none. |
| Aws.TerminateEc2Instance | src/aws.js:119-134 | Sends `InstanceIds` = [the configured instance id] and returns the provider's answer, errors unchanged. |
| Aws.WaitForInstanceRunning | src/aws.js:136-151 | Waits with the `instanceRunning` waiter on `InstanceIds` = [the given id] and returns its answer, errors unchanged. |

## Left out

- Logging (`core.info`, `core.error`) has no modelled effect. The unsupported-tag branch of `buildUserDataScript` only logs, then returns the empty list, as modelled.
- The EC2 client (`new AWS.EC2()`, `runInstances`, `terminateInstances`, `waitFor`) is network I/O. Each call is a function parameter from the request to the answer. Retries, timeouts and the waiter's polling are not modelled.
- `Buffer.from(…).toString('base64')` is a parameter `base64`. The base64 alphabet and padding are not modelled. Only the round trip through a decoder that inverts it is used.
- `async`, `await` and promises: each call is modelled as returning its settled result.
- The configuration module `src/config.js` is not part of this model. Its fields are the record `Config.Configuration`. `tagSpecifications` is either absent or a list, and the shapes of its entries are taken as given.
- Aws.StartEc2Instance: an answer whose `Instances` is missing, or whose first instance has no `InstanceId`, is not modelled. `Instances` is always a list and the id always a string. Only the empty list, which throws in the source, becomes `MissingInstance`.
- Aws.StartEc2Instance: the thrown `TypeError` and the provider's error object are modelled as `StartFailure` values, not as exceptions.
- Shell and PowerShell semantics (what the lines do when run) are not modelled; only the text of the lines is. `Split` at spaces is not shell or PowerShell word splitting. A value holding `;`, `#`, `&`, `|`, `$` or quotes is read by the shell when the script runs, and that is not modelled. Quotes in `cd "<dir>"` are kept literally, as in the source.
