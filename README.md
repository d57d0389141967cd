# Cloud image helper: action dispatch

This project models the dispatcher of the cloud image helper of alpine-for-k8s.
The helper runs after an image build as a post-processing step. It takes one
lifecycle action (`local`, `upload`, `import`, `sign`, `publish` or `release`)
and one or more image keys. For each key in turn it:

- looks up the image configuration;
- loads any local metadata;
- retrieves the image from storage when the action is `import` or `sign` and
  the image is not present locally;
- runs the one operation the action stands for (`publish` only when the cloud
  driver reports the `publish` capability);
- saves the metadata under the action's name.

The operations themselves live in collaborator modules that are not part of
this model. Each collaborator call is therefore recorded as an event in a trace
(`Policy.Call`). The two things the loop observes of its environment are given
per iteration by a `probe`: whether the image file exists, and the driver's
capability names. A collaborator that raises is given by `failAt`, the trace
position of the first call that raises.

Modules:

- `Cli` (cli.dfy): the actions, their command-line names and the parsing of
  the positional arguments.
- `Policy` (policy.dfy): the per-key decision table, `KeyCalls`, and its shape.
- `Trace` (trace.dfy): the planned trace over a key list, the calls made when a
  collaborator raises, and the lemmas about both.
- `Dispatch` (dispatch.dfy): the loop itself as an imperative method. It is
  proved equal to the planned trace cut at the raising call.
- `Wrappers` (wrappers.dfy): `Option` and `Result`.

A batch tool like this is often expected to isolate failures per key: report
a failed key, go on with the batch and save metadata for every key. The code
has no exception handling at all. A raising collaborator ends the loop: that
key is not saved and no later key is touched. The model follows the code and
proves this (`Trace.NoFailureIsolation`).

## Model

| member | source | states |
|---|---|---|
| `Cli.Name` | cloud_helper.py:40 | every action's command-line name is one of the six listed names |
| `Cli.ParseAction` | cloud_helper.py:51 | a string is accepted as an action exactly when it is one of the listed names, and the accepted action has that name |
| `Cli.ParseName` | cloud_helper.py:40 | parsing an action's name gives back that action, so the names are distinct |
| `Cli.ParseArgs` | cloud_helper.py:51-53 | parsing succeeds exactly when the first token is a listed action and at least one image key follows; the keys are the remaining tokens in order; an unknown action is reported as an invalid choice even when keys are missing; missing tokens are reported as missing `action` and/or `IMAGE_KEY` |
| `Policy.Operation` | cloud_helper.py:85-101 | each action's operation is an action step about the given key |
| `Policy.OperationInjective` | cloud_helper.py:85-101 | different actions stand for different operations |
| `Policy.KeyCallsFrame` | cloud_helper.py:78-104 | one key's calls: the configuration lookup first, the metadata load second, the save tagged with the action last, each exactly once, and all about that key |
| `Policy.KeyCallsSteps` | cloud_helper.py:81-101 | one key's calls hold a retrieve exactly when the action is `import` or `sign` and the image is absent, and then before the action step; at most one action step, the one the action stands for, skipped only for `publish` without the capability |
| `Trace.Issued` | cloud_helper.py:77-104 | the calls made are a prefix of the planned calls; when a call raises, they end with that call; otherwise they are all the planned calls |
| `Trace.PlannedPrefix` | cloud_helper.py:77 | the calls for a prefix of the keys are a prefix of the calls for all keys |
| `Trace.PlannedStep` | cloud_helper.py:77-104 | processing one more key appends exactly that key's calls |
| `Trace.BlockAt` | cloud_helper.py:77-104 | key i's calls form one contiguous block of the trace, right after the blocks of the keys before it |
| `Trace.PlannedLoads` | cloud_helper.py:77-79 | with no failure, the trace looks up and loads each key once per occurrence, in the given order |
| `Trace.PlannedSaves` | cloud_helper.py:104 | with no failure, the trace saves each key once per occurrence, in the given order, tagged with the action; so the number of saves equals the number of keys |
| `Trace.CutInsideOneKey` | cloud_helper.py:77-104 | cutting the trace after any call leaves exactly one key looked up and not yet saved |
| `Trace.SavesBeforeCut` | cloud_helper.py:104 | the calls strictly before any planned call hold fewer saves than there are keys |
| `Trace.NoFailureIsolation` | cloud_helper.py:77-104 | when a call raises, it is the last call made; the lookups made are a prefix of the planned lookups and the completed saves a prefix of the planned saves; exactly one key was looked up but not saved; fewer keys than given were saved |
| `Dispatch.KeyStep` | cloud_helper.py:78-104 | the loop body's if/elif chain makes exactly the calls of the decision table, in order |
| `Dispatch.RunAction` | cloud_helper.py:77-104 | the loop makes exactly the planned calls up to and including the first that raises; it ends by raising exactly when the raising call is reached, and then with that call, the last one made; otherwise it completes with every planned call made |
| `Dispatch.RunCommand` | cloud_helper.py:51-104 | a refused command line makes no call at all and reports the parse error; an accepted one runs the loop on the parsed action and keys, with the same outcome as the loop: raised with the last call made exactly when a call raises, completed with all planned calls otherwise |

## Left out

- The work-directory check and the re-execution under the work environment's
  Python (cloud_helper.py:15-26): process and file-system plumbing.
- The `--debug` and `--use-broker` flags, logging to standard output, and the
  credential broker set-up (cloud_helper.py:47-50, 55-65): I/O and foreign calls.
- The construction of the configuration manager and of the YAML object
  (cloud_helper.py:68-75): the configuration schema is in code not part of this
  model, and the YAML object is never used by the loop.
- The bodies of the collaborator operations (`convert_image`, `upload_image`,
  `retrieve_image`, `sign_image`, `release_image`, `save_metadata`,
  `load_local_metadata`, `clouds.import_image`, `clouds.publish_image`,
  `clouds.actions`, `configs.get`): code not part of this model. They appear as
  trace events, and their observable answers as the `probe`.
- Cli.ParseArgs: models only the positional tokens. Option parsing (a key
  that starts with `-`, `--help`, abbreviations) and the parser's exit status 2
  are not modelled.
- Raising from the two probes themselves (`image_path.exists()` and
  `clouds.actions(...)`): only the recorded calls can raise in the model.
- The process exit status after an uncaught exception: Python's runtime sets
  it, not this code.
- Running keys in parallel, retries and per-key error recovery: the code is a
  plain sequential loop with no exception handling.
