# Prompt action plugin — a Dafny model

This project models the early `ActionModule` version of the Ansible `prompt`
action plugin (`action_plugins/prompt.py`). For one task, the plugin:

1. checks the task's argument map:
   - every key must be one of `say`, `ask`, `multi`;
   - `multi` must stand alone;
   - `multi` must be a list;
2. prints the `say` text, either of each message in the `multi` list or of
   the whole argument map, with one line per element when `say` is a list;
3. returns the host runtime's own result unchanged. If a check fails, it
   instead returns a fresh failure record `{failed: True, msg: …}` and prints
   nothing.

## Layout

- `values.dfy` (module `Values`): Python values as they come from the task
  (`Value`). A dictionary is kept as its entries in iteration order.
  `Lookup` and `GetItem` model `k in d` and `d[k]`, including the
  `KeyError` and `TypeError` an unguarded subscript raises.
- `percent_format.dfy` (module `PercentFormat`): the part of Python's
  `template % args` that `_fail` uses. That is `%s` and `%%`, plus the
  `TypeError` when the argument count does not match.
- `messages.dfy` (module `Messages`): the three failure templates of `run`.
- `prompt.dfy` (module `Prompt`): the plugin itself, in two parts.
  - The specification functions: `Validate`, `Fail`, `SayOutput`,
    `PromptEach` and `RunSpec`, with the lemmas about them.
  - The step-by-step procedure: a `Console` class standing for standard
    output, and the methods `PromptMessage` (`_prompt`), `PromptAll` (the
    loop over `multi`) and `Run` (`run`). Each method is proved to print and
    return exactly what the specification functions say.

Printing is modelled as appending lines to `Console.lines`. The text that
Python 2's `print` writes for a value, `str(v)`, is left uninterpreted: it is
the function parameter `show`. Each printed line is `show(v) + "\n"`.

Some behaviour of the code differs from the repository's general
description of the plugin. That description covers a later version, with a
`msg` parameter, `ask` input and alignment. This model follows the code:

- `ask` is accepted, but reads no input and adds nothing to the result.
- A message with no `say` key makes `_prompt` raise `KeyError('say')`. This
  includes a map that holds only `ask`.
- A `multi` element that is not a dictionary makes `_prompt` raise
  `TypeError`.

The model represents these exceptions as the outcome `Raised`. The lines
printed before the exception remain printed.

## Model

| member | source | states |
|---|---|---|
| `Values.Lookup` | action_plugins/prompt.py:48 | `k in args` holds exactly when some entry has key `k`, and the value found is stored under `k` |
| `Values.GetItem` | action_plugins/prompt.py:77 | `args['say']` succeeds exactly on a dictionary holding the key and yields a value stored under it; otherwise a dictionary raises `KeyError(key)` and any other value raises `TypeError` |
| `PercentFormat.Interpolate` | action_plugins/prompt.py:98 | `message % args` succeeds exactly when the number of arguments equals the number of `%s` directives, and raises `TypeError` otherwise |
| `PercentFormat.Verbatim` | action_plugins/prompt.py:98 | a template with no `%`, formatted with no arguments, is the template unchanged |
| `PercentFormat.SubstituteOne` | action_plugins/prompt.py:45 | a template with a single `%s` and one argument yields the text before the directive, then the argument, then the text after it |
| `Messages.TemplateTextsPlain` | action_plugins/prompt.py:45-55 | the literal text of the three failure templates contains no `%` outside the one `%s` placeholder |
| `Prompt.Fail` | action_plugins/prompt.py:86-99 | `_fail` returns a fresh record with exactly the keys `failed` and `msg`, `failed` is `True` and `msg` is a string; it raises `TypeError` exactly when the argument count does not match the placeholders |
| `Prompt.FailVerbatim` | action_plugins/prompt.py:96-99 | with no arguments and no placeholder, `msg` is the template verbatim |
| `Prompt.FailOneArg` | action_plugins/prompt.py:96-99 | with one `%s` and one argument, `msg` is the template with the argument in place of the placeholder |
| `Prompt.FirstInvalidArg` | action_plugins/prompt.py:43-45 | no key is reported exactly when every key is in `VALID_ARGS` (line 28); a reported key is never a valid one |
| `Prompt.FirstInvalidArgAt` | action_plugins/prompt.py:43-45 | the key reported is the first offending key in iteration order |
| `Prompt.Validate` | action_plugins/prompt.py:43-55 | the checks apply in source order, each as an if-and-only-if. Some key not in `VALID_ARGS` gives the invalid-argument failure. Otherwise `multi` with any other key gives the "cannot be combined" failure. Otherwise a sole `multi` that is not a list gives the "must be a list" failure. Otherwise the arguments pass |
| `Prompt.TemplatesWellFormed` | action_plugins/prompt.py:45-55 | the three templates use only `%s` directives |
| `Prompt.RejectionMessage` | action_plugins/prompt.py:45-55 | each of the three `_fail` calls returns exactly `{failed: True, msg: <message>}`. The messages are `'<key>' is not a valid argument for prompt`, `'multi' cannot be combined with additional arguments.` and `'multi' must be a list of individual messages.` |
| `Prompt.Lines` | action_plugins/prompt.py:77-79 | a list `say` gives one line per element, in order, each the element's text followed by a newline |
| `Prompt.SayOutput` | action_plugins/prompt.py:69-82 | `_prompt` prints exactly when the message is a dictionary with a `say` key. A list `say` prints one line per element, in order. Any other `say` prints exactly one line. Otherwise it raises `KeyError('say')` (dictionary) or `TypeError` (anything else) |
| `Prompt.PromptEachStops` | action_plugins/prompt.py:57-58 | once a `multi` message raises, no later message is prompted |
| `Prompt.PromptEachAppend` | action_plugins/prompt.py:57-58 | prompting two lists in turn prints the first list's output followed by the second's |
| `Prompt.PromptEachAll` | action_plugins/prompt.py:57-58 | when every message prints, each is prompted exactly once, in list order, and the output is the concatenation of their outputs |
| `Prompt.PromptEachFirstError` | action_plugins/prompt.py:57-58 | when message `i` is the first to raise, the output is that of messages `0..i-1` and message `i`'s exception escapes |
| `Prompt.RunRejects` | action_plugins/prompt.py:43-55 | every rejected argument map yields exactly the failure record of its violation, without the base result's fields, and prints nothing |
| `Prompt.RunInvalidArg` | action_plugins/prompt.py:43-45 | if any key is not valid, `run` returns `{failed: True, msg: "'<first such key>' is not a valid argument for prompt"}` whatever else the map holds, and prints nothing |
| `Prompt.RunMultiCombined` | action_plugins/prompt.py:48-52 | with valid keys, `multi` beside any other key returns the "cannot be combined" failure and prints nothing |
| `Prompt.RunMultiNotList` | action_plugins/prompt.py:54-55 | a sole `multi` that is not a list returns the "must be a list" failure and prints nothing |
| `Prompt.RunMulti` | action_plugins/prompt.py:57-64 | a `multi` list whose messages all print returns the base result unchanged, and prints the concatenation of the messages' outputs in list order |
| `Prompt.RunMultiList` | action_plugins/prompt.py:57-64 | for any `multi` list, `run` prints what prompting the messages in order prints; it raises the first message's exception, or else returns the base result |
| `Prompt.RunSingle` | action_plugins/prompt.py:60-64 | without `multi`, the whole map is prompted once and the base result is returned unchanged; a map without `say` raises `KeyError('say')` and prints nothing |
| `Prompt.RunIgnoresAsk` | action_plugins/prompt.py:28 | adding an `ask` entry at any position of a map without `multi` changes neither the output nor the result |
| `Prompt.Console.Print` | action_plugins/prompt.py:82 | `print v` appends exactly one line, the text of `v` followed by a newline |
| `Prompt.PromptMessage` | action_plugins/prompt.py:69-82 | `_prompt` appends exactly the lines of `SayOutput` to standard output. When `args['say']` fails it prints nothing and reports that exception |
| `Prompt.PromptAll` | action_plugins/prompt.py:57-58 | the loop over `multi` prints exactly what `PromptEach` says, stopping at the first exception |
| `Prompt.Run` | action_plugins/prompt.py:31-64 | `run` returns and prints exactly what `RunSpec` says. Taken with the lemmas above: failures print nothing, messages are prompted in order, and success returns the base result unchanged |

## Left out

- The host runtime is not modelled. `ActionBase.run` (`super().run`, with
  `tmp` and `task_vars`) becomes the parameter `base`, and `self._task.args`
  becomes the parameter `args`.
- Real standard output and Python 2 `print` details (softspace, encoding of
  unicode) are not modelled. Output is the sequence `Console.lines`, and the
  value-to-text conversion `str(v)` is the uninterpreted parameter `show`.
- Python 2 does not fix the iteration order of a dictionary. The model takes
  the order of the entry sequence as that order.
- The model does not require distinct keys. A Python dictionary always has
  them, and no result of the model depends on it.
- `Prompt.Fail` requires the template to use only the `%s` and `%%`
  directives, so other `%` conversions are not modelled. All three
  templates of `run` meet this requirement (`Prompt.TemplatesWellFormed`).
  The format arguments are strings, as the one argument `run` passes (a key)
  is.
- `Prompt.PromptAll` models the loop at lines 57-58 of `run` as a method of
  its own. `Prompt.Run` calls it in place of the inline loop.
- The model has no exceptions from writing to standard output. Its only
  exceptions are `KeyError` and `TypeError` from `args['say']`, and
  `TypeError` from a mismatched `%`.
- Scalar values other than null, booleans, integers and strings (floats,
  for example) are not modelled. `_prompt` treats them like any other
  non-list `say`: it prints one line.
- `TRANSFERS_FILES` (line 27) is a flag for the host runtime and plays no
  part in the plugin's behaviour.
- The repository's tests exercise a later `Prompt` class whose source is not
  part of this model. Its `ask` input loop, confirm and default handling,
  alignment and `msg` checks are therefore not modelled.
