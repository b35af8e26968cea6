# SSO logon demo robot: configuration and process-list navigation

A model of the two pieces of decision logic in the Robocorp robot that logs
into Control Room through Okta single sign-on and starts a named process
(`tasks.py`):

- **Configuration resolution** (`get_url`, `get_subdomain`,
  `get_process_name`). Each setting is read from a text storage asset; if that
  read raises anything at all, from the environment variable of the same name;
  if that is unset, from a constant. `Config.Resolve` models the chain over the
  asset outcome (`Option<string>`, `None` for every kind of failure) and the
  environment (`map<string, string>`). It is shown equal to a reference
  resolver that takes the first available value from an ordered list of tiers.
  `Config.ResolveConfiguration` groups the three reads against one environment.
  `Config.GetUrl`, `Config.GetSubdomain` and `Config.GetProcessName` instantiate
  it with the three keys and the defaults `https://cloud.robocorp.com/`,
  `eu1-acme` and `Demo`.
- **Process-list navigation** (the start of `start_process_by_name`). If the
  current address does not end in `/processes`, it is split on `/`. The
  target `https://<piece 2>/<piece 3>/<piece 4>/processes` is then built from
  the pieces. `Launch.DeriveProcessesUrl` returns `Success(None)` when no
  navigation is needed. It returns `Success(Some(target))` otherwise, and
  `Failure(IndexError)` when the split has fewer than five pieces. Python's
  `str.split`, `"/".join`, `startswith` and `endswith` are modelled in `Strings`,
  with both halves of the split/join round trip proved.
- **Row selector**: `Launch.RowSelector` builds the XPath
  `xpath=//table//a[contains(.,'<name>')]` with the name inserted unescaped.

Modules: `Wrappers` (Option, Result), `Strings`, `Config`, `Launch`.

The code is followed where the documentation disagrees with it:
- The docstrings of `get_url` and `get_subdomain` (tasks.py:34, tasks.py:54)
  name `https://cloud.robocorp.com/orgrobocorp/demo` and `orgrobocorp` as the
  defaults. The constants actually returned (tasks.py:6-7) are
  `https://cloud.robocorp.com/` and `eu1-acme`. `Config.DefaultsDifferFromDocstrings`
  states this.
- The process-list address keeps only pieces 2, 3 and 4 of the current
  address (host, organization, workspace). It always writes `https://`, so an
  `http://` address is rewritten to https. Pieces from index 5 on are dropped. `Launch.DerivedTargetKeepsFields`
  and `Launch.DeriveFromWorkspacePage` state this.
- The default address `https://cloud.robocorp.com/` splits into four pieces.
  A page left on it therefore raises IndexError instead of navigating
  (`Launch.DeriveFromDefaultUrlFails`).

## Model

| member | source | states |
|---|---|---|
| `Config.FirstAvailable` | tasks.py:37-43 | the reference resolver: a value comes from the first tier that has one, and every earlier tier is empty; the result is empty only if every tier is |
| `Config.FirstAvailableTotal` | tasks.py:37-43 | a tier list that ends in an always-present default always yields a value, so resolution cannot run out of tiers |
| `Config.Resolve` | tasks.py:37-43 | the nested try/except chain returns exactly the first available of asset, environment variable and default, so it always yields a value |
| `Config.AssetWins` | tasks.py:37-38 | a value read from the storage asset is returned whatever the environment holds |
| `Config.EnvironmentUsedWhenAssetFails` | tasks.py:39-41 | when the asset read fails and the variable is set, its value is returned verbatim, so an empty value is returned as is |
| `Config.DefaultWhenAllFail` | tasks.py:42-43 | when the asset read fails and the variable is unset, the key's default is returned |
| `Config.ResolveComesFromATier` | tasks.py:37-43 | the result is always the asset's value, the variable's value or the default, in that priority |
| `Config.ResolveReadsOnlyItsKey` | tasks.py:40-41 | only the variable with the key's own name is consulted: environments that agree on it give the same result |
| `Config.GetUrl` | tasks.py:26-43 | the URL is the `CONTROL_ROOM_URL` asset, else the `CONTROL_ROOM_URL` variable, else `https://cloud.robocorp.com/` |
| `Config.GetSubdomain` | tasks.py:46-62 | the subdomain is the `CONTROL_ROOM_SUBDOMAIN` asset, else that variable, else `eu1-acme` |
| `Config.GetProcessName` | tasks.py:65-81 | the process name is the `CONTROL_ROOM_PROCESS_NAME` asset, else that variable, else `Demo` |
| `Config.DefaultsDifferFromDocstrings` | tasks.py:26-62 | the defaults in effect are not the ones the docstrings of `get_url` and `get_subdomain` name |
| `Config.UnconfiguredRunUsesDefaults` | tasks.py:16-18 | with every asset read failing and none of the three variables set, the configuration is exactly `(https://cloud.robocorp.com/, eu1-acme, Demo)` |
| `Config.ResolveConfiguration` | tasks.py:16-18 | each of the three settings is the first available of its own asset, its own environment variable and its own default |
| `Config.SettingsResolveIndependently` | tasks.py:16-18 | each of the three settings depends only on its own asset, not on the other two |
| `Strings.Split` | tasks.py:113 | `str.split('/')` yields at least one piece and no piece contains the separator |
| `Strings.EndsWith` | tasks.py:112 | `s.endswith(suffix)` holds exactly when `s` is some string followed by `suffix` |
| `Strings.SuffixIsTail` | tasks.py:112 | the last `len(suffix)` characters are `suffix` exactly when `s` is some string followed by `suffix` |
| `Strings.JoinSplit` | tasks.py:113 | joining the pieces of a split with the separator gives back the original string |
| `Strings.SplitJoin` | tasks.py:113 | splitting a join of separator-free pieces gives back exactly those pieces |
| `Strings.SplitNoSeparator` | tasks.py:113 | a string without the separator splits into itself alone |
| `Strings.SplitAfterPiece` | tasks.py:113 | a separator-free head followed by the separator becomes the first piece of the split |
| `Launch.DeriveProcessesUrl` | tasks.py:112-116 | no navigation exactly when the address ends with `/processes`; IndexError exactly when it does not and splits into fewer than five pieces; a target always starts with `https://` and ends with `/processes` |
| `Launch.ProcessesUrl` | tasks.py:116 | the formatted address starts with `https://`, ends with `/processes` and, for names without `/`, splits back into `https:`, the empty piece, host, organization, workspace and `processes` |
| `Launch.ProcessesUrlIsJoin` | tasks.py:116 | the formatted target is the `/`-join of `https:`, the empty piece, host, organization, workspace and `processes` |
| `Launch.DerivedTargetKeepsFields` | tasks.py:113-116 | the target is exactly `https://<piece 2>/<piece 3>/<piece 4>/processes`, and it splits into `https:`, the empty piece, pieces 2, 3 and 4 of the current address, and `processes`: the scheme is replaced and pieces from index 5 on are dropped |
| `Launch.DeriveIsIdempotent` | tasks.py:112-116 | deriving from a derived target asks for no further navigation |
| `Launch.SplitConsoleAddress` | tasks.py:113 | `scheme//host/organization/workspace/rest` splits into scheme, the empty piece, host, organization and workspace, followed by the pieces of `rest` |
| `Launch.DeriveFromWorkspacePage` | tasks.py:112-116 | from any page `scheme//host/organization/workspace/rest` that is not a process list, the target is `https://host/organization/workspace/processes` |
| `Launch.DeriveFromWorkspaceRoot` | tasks.py:112-116 | from the workspace root `scheme//host/organization/workspace`, the target is `https://host/organization/workspace/processes` |
| `Launch.DeriveFailsWithoutWorkspace` | tasks.py:113-115 | an address `scheme//host/organization` that is not a process list raises IndexError |
| `Launch.DeriveFromDefaultUrlFails` | tasks.py:112-115 | the default address `https://cloud.robocorp.com/` raises IndexError |
| `Launch.RowSelector` | tasks.py:118 | the selector starts with `xpath=//table//a[contains(.,'`, ends with `')]` and has the name, and only the name, between them |
| `Launch.RowSelectorRoundTrip` | tasks.py:118 | the name can be read back unchanged from the selector built for it |
| `Launch.RowSelectorInjective` | tasks.py:118 | different process names give different selectors |
| `Launch.RowSelectorQuotedText` | tasks.py:118 | because the name is not escaped, the first XPath string literal of the selector closes at the name's first `'`: it is the whole name when the name has none, otherwise a strict prefix of it, and the rest of the name is read as XPath syntax |

## Left out

- Browser driving: opening the page, waiting for the SSO button or the Okta form with a 60-second timeout, the SSO-versus-Okta branch, filling and clicking fields, waiting for the `Processes` heading (tasks.py:84-107). Also the clicks and the run-confirmation wait after the row selector is built (tasks.py:117-124). These are calls into an external UI engine with wall-clock timeouts.
- `vault.get_secret` (tasks.py:14): an external secret service; credentials are opaque.
- `pyotp.TOTP` and `otp.now()` (tasks.py:15, 103): time-based code generation in a library that is not part of this model.
- `storage.get_text` and `os.environ`: modelled only as the outcome of one read (`Option<string>`) and a map. Why a read fails is not modelled, since the code catches every failure alike. Each read is an independent parameter.
- Logging and the `@task` entry point (tasks.py:11-23). Only the three configuration reads are kept: `Config.ResolveConfiguration` groups them against one environment. The order of the reads is not modelled.
- DeriveProcessesUrl: takes one `current` address, so it assumes that the two reads of `page.url` (tasks.py:112 for the `endswith` test, tasks.py:113 for the `split`) return the same address. If the page navigated between them, the source would test one address and split another. This is not modelled.
- Python's `IndexError` is the only error modelled. Which of the indexes `[3]` or `[4]` fails first is not distinguished, because both raise the same exception.
