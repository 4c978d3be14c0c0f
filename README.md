# directord components: a Dafny model

This project models the core of directord's component machinery. It has three parts:

- **`ComponentBase`** (`directord/components/__init__.py`). This is the base class every component extends. It covers:
  - command execution with an environment overlay and accepted return codes;
  - turning a YAML options document into parser arguments;
  - flattening exec fragments into argument tokens;
  - parsing with pre-formatted argument overrides;
  - the common `--exec-help` / `--skip-cache` / `--run-once` / `--timeout` arguments;
  - cache writes with optional merge;
  - template rendering of strings and files.
- **The container-image component** (`components/container_image.py`).
  - Its server turns `--pull/--push/--tag/--list/--inspect` and the positional images into a job record `{action, images}` and rejects inconsistent combinations.
  - Its client locates `podman` and runs `podman image <action> <images…>`.
- **The director utilities** (`director/utils.py`).
  - A second `run_command` that discards standard output unless debugging.
  - `ClientStatus`, the context manager that announces "processing" for a job and, on exit, sends the job's final state and info.

Modules:

| file | module | contents |
|---|---|---|
| `wrappers.dfy` | `Wrappers` | `Option`, `Result` |
| `values.dfy` | `Values` | Python values (None, bool, int, str, list, dict) and truthiness |
| `text.dfy` | `Text` | `str.split()`, `str.strip()`, `sep.join`, ASCII `str.lower()`, with their laws |
| `process.dfy` | `Process` | one process invocation and its outcome |
| `cache_store.dfy` | `CacheStore` | the cache as a mutable key → (value, tag, expire) store |
| `components.dfy` | `Components` | `ComponentBase` and its helpers |
| `container_image.dfy` | `ContainerImage` | the container-image server and client |
| `director.dfy` | `Director` | the director's `run_command` and `ClientStatus` |

The following outside pieces are parameters of the operations that use them:

- Process spawning is `spawn: Invocation -> Outcome`. Given the invocation, it yields standard output, standard error and the return code.
- `os.environ` is the `ambient` map.
- jinja2 rendering is `Render`. It yields `None` when rendering raises.
- argparse's `parse_known_args` is `Parse`. It maps the declared arguments and the tokens either to a namespace and the unknown tokens, or to the SystemExit the parser raises instead (help, or a parse error).
- `utils.merge_dict` is `Merge`.

A subclass's `args()` override is modelled by the component arguments it adds after the common ones.

Two behaviours of the code worth noting:

- The director's `run_command` uses a supplied environment as it is, with no overlay on `os.environ` (`director/utils.py:40-41`).
- `file_blueprinter` returns False when the file is empty or renders to an empty string (`directord/components/__init__.py:269-270`).

## Model

| member | source | states |
|---|---|---|
| `Components.OverlayEnv` | directord/components/__init__.py:81-86 | A missing or empty env gives the ambient environment. Otherwise the keys are the union, the supplied values win, and other ambient values are kept. |
| `Components.RunCommand` | directord/components/__init__.py:47-109 | The process is spawned once, with the overlaid environment, the given interpreter and shell flag, and output captured. Output and error are returned unchanged. Success holds iff the return code is in the accepted list: `[0]` when none is given, `[n]` for one integer, otherwise the list given. |
| `Components.AcceptedCodes` | directord/components/__init__.py:90-93 | A code is accepted iff it is 0 when none is given, the given integer when one is given, or a member of the given list. |
| `Components.SanitizedArgs` | directord/components/__init__.py:160-172 | Every token of the flattened arguments is non-empty and free of whitespace. |
| `Components.SanitizedArgsJoin` | directord/components/__init__.py:172 | Splitting each fragment and concatenating equals splitting the fragments joined by a space. |
| `Components.SanitizedArgsCharacters` | directord/components/__init__.py:172 | No character is lost or invented: the tokens concatenate to the non-whitespace characters of the fragments, in order. |
| `Components.RequiredOption` | directord/components/__init__.py:131-138 | `required` is True iff the value is boolean True or a string equal to "yes"/"true" ignoring case. It is False iff the value is boolean False. Otherwise it is absent. |
| `Components.YesOrTrueAnyCase` | directord/components/__init__.py:134-137 | The case-insensitive test accepts exactly the spellings of "yes" and "true" in any letter case. |
| `Components.HelpOption` | directord/components/__init__.py:121-125 | A falsy description gives no help. A list of strings gives the items joined with single spaces. A truthy list holding a non-string fails, as the join raises. Any other truthy value is passed through. |
| `Components.TypeOption` | directord/components/__init__.py:140-152 | "bool" in any case gives the `store_true` action. "list"/"dict"/"int"/"str" give the matching type. Anything else, including a non-string, gives neither. Action and type never both appear. |
| `Components.HelpJoinsWords` | directord/components/__init__.py:121-125 | A list description of single words becomes help text that splits back into exactly those words. |
| `Components.ConvertOptionSpec` | directord/components/__init__.py:118-158 | The converted argument is named `--<key>` and is outside any group. Among the modelled checks, conversion fails iff the description is a truthy list holding a non-string, where `" ".join` raises, or the type is `bool` and choices are truthy, where `add_argument` raises because the store_true action takes no `choices`. help is the `HelpOption` of the description. default and choices are present iff truthy and carry the given value. required is the `RequiredOption` of the field and action/type the `TypeOption` of the `type` field. |
| `Components.ConvertAllWithSpec` | directord/components/__init__.py:119-158 | For any conversion of one entry, the loop adds one argument per entry in order, or stops at the first entry that fails, having added exactly the arguments of the entries before it. |
| `Components.ConvertAllSpec` | directord/components/__init__.py:119-158 | Options are added in document order. Without error, every entry's argument is added. On an error at entry j, the arguments of entries before j are added and the error is entry j's. |
| `Components.CommonArguments` | directord/components/__init__.py:197-225 | Exactly four arguments, in order: `--exec-help` (help action), `--skip-cache` and `--run-once` (store_true), and `--timeout` (int, default 600). All have help text and no group. |
| `Components.Overlay` | directord/components/__init__.py:192-194 | After overlaying the pre-formatted values, every key of either map is present. A pre-formatted value wins, and parsed values of other keys are kept. |
| `Components.Blueprinter` | directord/components/__init__.py:281-304 | Falsy values return the content unchanged. Truthy non-dict values fail to render (None). A dict renders through the template engine. |
| `Components.SetCache` | directord/components/__init__.py:227-252 | Without update, the key holds the value with its tag and expiry. With update, it holds the merge of the previous value (an empty dict when absent) and the new one. All other keys are untouched. |
| `Components.FileStore.Read` | directord/components/__init__.py:265-267 | Reading an existing file yields its contents. A missing file is an error. |
| `Components.FileStore.Write` | directord/components/__init__.py:272-273 | A write succeeds iff the path is writable, and then replaces exactly that file's contents. |
| `Components.ComponentBase.constructor` | directord/components/__init__.py:29-44 | Keeps the description, is cacheable, and has no parsed arguments yet. |
| `Components.ComponentBase.Args` | directord/components/__init__.py:197-225 | The parser becomes the common arguments followed by the component's own. |
| `Components.ComponentBase.OptionsConverter` | directord/components/__init__.py:111-158 | The parser grows by exactly the converted arguments, in order. It stops at, and reports, the first conversion error. |
| `Components.ComponentBase.ExecParser` | directord/components/__init__.py:174-195 | Parses the flattened tokens. When the parser exits (help or a parse error), it fails with that exit and leaves the recorded parse unchanged. Otherwise it records the parse and the unknown tokens. If the namespace has a truthy `exec_help`, it then fails. Otherwise the known arguments are the overlay of the pre-formatted values. |
| `Components.ComponentBase.Server` | directord/components/__init__.py:311-324 | Declares the common and component arguments, then behaves as `ExecParser` on them. Its state after a parser exit, on the help check and on success is stated as there. |
| `Components.ComponentBase.FileBlueprinter` | directord/components/__init__.py:254-279 | Renders with the cached `args`. It fails and leaves files alone when the file is missing or rendering gives nothing. Otherwise it writes the rendered text back and succeeds iff the write succeeds. |
| `CacheStore.Cache.Get` | directord/components/__init__.py:267 | A stored key gives its value; a missing key gives the default. |
| `CacheStore.Cache.Pop` | directord/components/__init__.py:249 | Returns what `Get` gave and removes exactly that key. |
| `CacheStore.Cache.Set` | directord/components/__init__.py:252 | Stores value, tag and expiry under the key, leaving other keys alone. |
| `Text.Split` | directord/components/__init__.py:172 | A string starting with a non-space character has a first token starting with that character. |
| `Text.SplitTokens` | directord/components/__init__.py:172 | `str.split()` yields only non-empty tokens without whitespace. |
| `Text.SplitAtSpace` | directord/components/__init__.py:172 | Splitting at one whitespace character splits the two sides independently. |
| `Text.SplitKeepsCharacters` | directord/components/__init__.py:172 | The tokens concatenate to the non-whitespace characters of the input. |
| `Text.SplitToken` | directord/components/__init__.py:172 | A whitespace-free non-empty string splits to itself. |
| `Text.SplitJoin` | directord/components/__init__.py:124 | Joining tokens with a space and splitting again gives back the tokens. |
| `Text.SplitEmpty` | directord/components/__init__.py:172 | A string has no tokens iff it is all whitespace. |
| `Text.JoinWithLength` | components/container_image.py:119-121 | The joined text has the length of the parts plus one separator between each pair of neighbours. It starts with the first part followed, when there are more parts, by the separator. |
| `Text.Strip` | components/container_image.py:115-116 | The result is the input with exactly its leading and trailing whitespace removed. It is a slice whose removed prefix and suffix are all whitespace. It is empty iff the input is all whitespace, and otherwise starts and ends with non-whitespace. |
| `Text.LowerMatches` | directord/components/__init__.py:134-142 | `s.lower() == w`, for a lower-case word `w`, holds exactly when each character of `s` is the letter of `w` or its upper-case form. |
| `Text.LowerSpec` | directord/components/__init__.py:134-142 | `lower()` leaves no upper-case ASCII letter. Each one becomes its lower-case letter, and every other character is kept. |
| `Values.Lookup` | directord/components/__init__.py:121 | `dict.pop(key, None)` gives the stored value or None. |
| `ContainerImage.ImageArguments` | components/container_image.py:22-57 | Five store_true switches `--pull --push --tag --list --inspect`, in one mutually exclusive group, then the positional `images` with `nargs="*"`. |
| `ContainerImage.ReadKnownArgs` | components/container_image.py:72-98 | The server can read the namespace iff it has all five switches and an image list of strings. The switches read by truthiness and the images unchanged. |
| `ContainerImage.ChosenAction` | components/container_image.py:73-82 | The recorded action follows the precedence pull, push, tag, list, inspect. There is no action iff no switch is set. |
| `ContainerImage.ValidationError` | components/container_image.py:84-101 | Tag needs exactly two images. Push, pull and inspect need at least one, naming the action. List forbids images. No error iff none of these applies. |
| `ContainerImage.ServerAcceptsExactly` | components/container_image.py:84-101 | With at most one switch set, a job is accepted iff it is tag with two images, pull/push/inspect with at least one, list with none, or no action. An empty pull, push or inspect gets the message naming its own action. |
| `ContainerImage.Recorded` | components/container_image.py:72-83 | The record gets the images and, when a switch is set, its action. All other fields, and an earlier action when no switch is set, are kept. |
| `ContainerImage.RecordJob` | components/container_image.py:72-102 | The record is updated before validation, as in the source, and the job is returned iff validation finds no error. Otherwise the first error is raised. |
| `ContainerImage.Server` | components/container_image.py:59-102 | The intended server. The parser holds the common and image arguments. A parser exit or the help check aborts before the record is touched. Otherwise `known_args` is the overlaid namespace and the job is recorded and validated as above. `unknown_args` is the parser's unknown tokens, and cacheability is unchanged. |
| `ContainerImage.ServerAsWritten` | components/container_image.py:71 | As written, every call fails: the base `server` has no `exec_array` parameter. |
| `ContainerImage.ServerAsWrittenRejectsValidJob` | components/container_image.py:71-87 | A tag job with two images passes validation, yet the server as written rejects it. |
| `ContainerImage.PodmanCommandShape` | components/container_image.py:119-121 | The command line is `<podman> image <action> <images joined by spaces>`. |
| `ContainerImage.Client` | components/container_image.py:104-125 | If `command -v podman` prints only whitespace, the client fails with the "Unable to find podman binary." message and the lookup's error. Otherwise a well-formed job runs the podman command, returning its output, error, success and the command. A malformed job raises. |
| `ContainerImage.PodmanCommandWords` | components/container_image.py:119-123 | When no word contains whitespace, the shell sees exactly podman, "image", the action and the images. |
| `Director.LaunchEnv` | director/utils.py:40-41 | A supplied environment is used as it is; the ambient one only when none is supplied. |
| `Director.RunCommand` | director/utils.py:5-65 | Success holds iff the return code is accepted (default `[0]`). A failure returns the error text. A success returns the output when debugging and None otherwise, since standard output goes to the null device. |
| `Director.Socket.SendMultipart` | director/utils.py:79-81 | Each multipart message is appended to what the socket has carried. |
| `Director.ClientStatus.constructor` | director/utils.py:71-81 | State and info start as the null byte, and opening sends `[job_id, job_processing, nullbyte]`. |
| `Director.ClientStatus.Enter` | director/utils.py:83-89 | Entering hands back the session itself. |
| `Director.ClientStatus.Exit` | director/utils.py:91-94 | Leaving sends `[job_id, job_state, info]` with the current values. |
| `Director.FinalStateSkipsInfo` | director/utils.py:76 | Updates that only assign the info leave the reported state unchanged. |
| `Director.FinalStateIsLast` | director/utils.py:76 | The state sent on exit is the one from the last state assignment. With no state assignment, it is the null byte set at start. |
| `Director.FinalInfoSkipsState` | director/utils.py:77 | Updates that only assign the state leave the reported info unchanged. |
| `Director.FinalInfoIsLast` | director/utils.py:77 | The info sent on exit is the one from the last info assignment. With no info assignment, it is the null byte set at start. |
| `Director.Session` | director/utils.py:68-94 | A job run inside the context manager sends exactly two messages: the processing marker, then the last-assigned state and info. The session it leaves behind holds that state and info. |

## Left out

- Process execution, `os.environ`, file I/O, jinja2 and argparse are parameters (`spawn`, `ambient`, `FileStore`, `Render`, `Parse`); their internals are not modelled. This includes argparse's own help printing, its enforcement of the mutually exclusive group, and duplicate-option errors.
- `yaml.safe_load` is not modelled: `options_converter` receives the already loaded `options` mapping as a sequence of (key, fields) pairs. An entry that is not a mapping, or a missing `options` key, raises in the source and is outside the model.
- `utils.merge_dict` is not part of this model. `SetCache` takes the merge as a parameter and states its result in terms of it.
- Logging and the `blueprint` jinja environment object are not modelled, nor are `parser_error` (help printing) and the base `client` (`conn.start_processing()`, whose connection object is not part of this model).
- Cache expiry and tag eviction over time are not modelled. The cache is a map of entries.
- Outputs are decoded strings; byte decoding and its failure are not modelled. The source's `--list` error message is a bytes literal; the model uses the same text as a string.
- `Text.Lower`: folds ASCII letters only. Python's `str.lower` also folds non-ASCII letters, none of which lowers to the ASCII words compared against.
- `Components.RunCommand`: the command is a string. The list form used with `shell=False` is not modelled.
- `Director.RunCommand`: `return_codes` is None or a list. A single integer, which the source's docstring mentions, makes the membership test raise and is not modelled. `debug` is a boolean, whereas the source tests `debug is False`.
- Components.ComponentBase.ExecParser: argparse's `help` action prints the help and raises SystemExit inside `parse_known_args`, which is the parser's failure here. The check for a truthy `exec_help` attribute that follows (directord/components/__init__.py:189-190) is kept as written, although a real parser with that action never sets the attribute.
- `Components.ComponentBase.ExecParser`: `arg_vars` of None is modelled as the empty map, which the source treats the same way.
- Components.ConvertOptionSpec: its failure condition covers only the checks modelled in `ConvertOption`, the failing join of the description and the store_true action's rejection of `choices`. Other checks `add_argument` makes are not modelled: truthy `choices` that cannot be iterated (such as `5`) raise ValueError, and an empty key gives the option string `--`, which has no destination name and raises ValueError. `ConvertOption` converts both. Each entry's fields are also an independent value, whereas the source pops them from the loaded mapping in place, so an entry that aliases an earlier one (a YAML anchor) would see its fields already removed.
- `Components.SetCache`: `expire` is an integer; `expire=None` (no expiry) is not modelled.
- `Components.ComponentBase.FileBlueprinter`: a write failure after `open(..., "w")` may already have truncated the file in the source; the model leaves the file unchanged.
- `ContainerImage.ReadKnownArgs`: an `images` override in `arg_vars` that is not a list of strings (a string or a dict, which Python would accept and measure with `len`) is treated as a malformed namespace.
- `ContainerImage.Client`: a job whose `images` is a string is treated as malformed, whereas Python would join its characters.
- `ContainerImage.Server`: `data` is the record object the server updates in place. It is returned on success, and exceptions are `Failure` values.

## Findings

| source | as written | input that shows it | evidently intended | confidence | as-written member | corrected member |
|---|---|---|---|---|---|---|
| components/container_image.py:71 | calls `super().server(exec_array=exec_array, …)`, but the base `server` (directord/components/__init__.py:311) names its parameter `exec_string`, so the call raises TypeError on every input | exec `["--tag img:old img:new"]`, empty `arg_vars` | pass the fragments positionally or as `exec_string`, then record and validate the job | high; not executed | `ContainerImage.ServerAsWritten` (with `ContainerImage.ServerAsWrittenRejectsValidJob`) | `ContainerImage.Server` |
