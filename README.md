# kokki-solo run-list driver and content sources, in Dafny

This project models two parts of kokki, a configuration-management tool written in Python 2:

- **`kokki_solo`** (`kokki_solo.dfy`, module `KokkiSolo`) is the standalone driver. It reads a node descriptor, a JSON document holding a `run_list` of `recipe[...]` and `role[...]` tokens.
  - Each recipe token makes the Kitchen include a recipe.
  - Each role token loads a role file. The role's `data` is applied to the Kitchen's configuration, and the role's own run-list is walked.
  - Then the Kitchen runs.
- **Content sources** (`source.dfy`, module `Source`) turn a name into content:
  - `StaticFile` yields the bytes of a file under a cookbook's `files` directory.
  - `Template` renders a Jinja template found under a cookbook's `templates` directory, through `TemplateLoader`.
  - `DownloadSource` fetches a URL and keeps an optional on-disk cache guarded by an MD5 checksum.

Two small modules support them:
- `runtime.dfy` (module `Runtime`) holds the Python values and exceptions exchanged.
- `paths.dfy` (module `Paths`) holds `str.split('/', 1)`, POSIX `os.path.join` and `os.path.basename`, and the path part of `urlparse`.

Each imperative operation is a method proved against a pure specification function, and the properties of the operation are proved as lemmas about that function:
- `ProcessRole` against `RoleEffect`;
- the run-list loop of `main` (`WalkRunList`, `RunSolo`) against `NodeWalk` and `MainSpec`;
- `DownloadSource.GetContent` against `Download`;
- `Template.GetContent` against `ContentFor`.

The state these operations change is modelled as objects:
- the file system is a `FileSystem` object whose snapshot is a `Disk` value (files, directories, modification times);
- the Kitchen, the environment and the template context are objects whose fields the methods update;
- the network is a `Network` object serving a fixed function of the URL and logging every request.

Rendering, the network's answers, the MD5 digest and the clock are parameters.

## Behaviour as written

The model follows the code. The behaviours below are easy to assume otherwise; this is what the code does.

- A role's `data` is applied with a plain `dict.update`. Top-level keys are replaced wholesale; nested mappings are not merged.
- The `data` is applied *before* the role's run-list is walked, and it stays applied when the walk then fails.
- The role file is `<file_cache_path>/roles/<name>` with no `.json` suffix.
- Inside `process_role` the local `role` (the loaded dict) shadows the module-level `role` pattern. So a role's run-list can only hold recipe tokens: the first string that is not one raises `AttributeError` (a non-string item raises `TypeError` in the recipe match before that), and nested roles are never expanded. There is consequently no recursion and no cycle to guard against.
- Recipe tokens inside a role are included whole (`recipe[x]`, group 0). At the top level only the bracket contents (`x`, group 1) are included.
- A string in the node's run-list that is neither a recipe nor a role token is silently dropped.
- The regular expressions are those of Python's `re`:
  - `.` does not match a newline;
  - `$` also matches just before a final newline, which is then not part of group 0;
  - `.*` is greedy, so `recipe[a]]` names `a]`.
- `Template.get_content` appends a newline only when the rendering does not end with one. A rendering ending in `"\n\n"` is kept as it is.
- `DownloadSource.get_content` never stores a cache miss. The cache is written only when an existing entry fails a truthy `md5sum` and is refetched.
- `DownloadSource.__init__` reads `config` through its `env` *argument*, not through `self.env`. So without an explicit environment it raises `AttributeError`.

## Model

| member | source | states |
|---|---|---|
| Paths.SplitFirst | kokki/source.py:26-29 | the unpacking fails exactly when the name holds no '/'; otherwise the first part holds no '/' and first + "/" + second is the name |
| Paths.SplitFirstAt | kokki/source.py:27 | the split is at the first '/': the cookbook is everything before it, the rest (slashes included) everything after |
| Paths.Join | kokki/source.py:31 | `os.path.join`: the second part ends the result; a relative second part keeps the first as a prefix; an absolute one replaces it |
| Paths.JoinUnder | kokki/source.py:52 | joining a root, a sub-directory and a name gives `root/sub/name`, unless the name is absolute |
| Paths.TrimTrailingSlashes | kokki/source.py:53 | the directory a path names is the path with its trailing '/' removed and nothing else: a prefix, followed in the path only by '/', not itself ending in '/' (the root stays "/"), and empty only for the empty path |
| Paths.TrimAppendedSlash | kokki/source.py:53 | `dir/` names the directory `dir` |
| Paths.BasenameIsLastComponent | kokki/source.py:91 | the base name holds no '/', is a suffix of the path, and is preceded by '/' when shorter than the path |
| Paths.UrlPathDropsQueryAndFragment | kokki/source.py:91 | the URL path holds neither '?' nor '#' |
| Source.Disk.Read | kokki/source.py:32-33 | reading succeeds exactly for a regular file and yields its bytes; a directory or a missing path raises `IOError` for that path |
| Source.TrailingSlashNamesDirectory | kokki/source.py:53-57 | a directory named with a trailing '/' exists and has the directory's modification time, but reading it raises `IOError` |
| Source.Locate | kokki/source.py:26-31 | a name without '/' fails with the given `Fail` message, and no other name raises `Fail` at all; an unknown cookbook (the part before the first '/') raises `KeyError`; a located path comes from a known cookbook that starts the name |
| Source.LocateSplitsOnFirstSlash | kokki/source.py:26-31 | a name `cookbook/rest` resolves to `rest` under the cookbook's directory and kind, or to KeyError for an unknown cookbook |
| Source.StaticFile.GetContent | kokki/source.py:25-33 | it raises `Fail` exactly for a name without '/', with the exact message; any content returned is the bytes of a file on disk |
| Source.StaticFileReadsFilesDirectory | kokki/source.py:30-33 | `cookbook/rest` yields exactly the bytes at `files/rest` under the cookbook, and succeeds exactly when that is a regular file |
| Source.UpToDate.Check | kokki/source.py:58 | the check is true exactly when the modification time `getmtime` reports still equals the one seen at load, false when it differs, and raises `OSError` for the path when there is none |
| Source.TemplateLoader.GetSource | kokki/source.py:46-58 | it raises `Fail` exactly for a name without '/', with the exact message; on success the source is the file's bytes, the file name is where it was read, and the up-to-date check holds right after loading |
| Source.TemplateLoaderFindsTemplatesDirectory | kokki/source.py:51-58 | TemplateNotFound exactly when nothing exists at `templates/rest`; for a regular file, its bytes, its path and its modification time |
| Source.TemplateDirectoryIsNotATemplate | kokki/source.py:51-57 | the name `cookbook/` points at the `templates` directory itself, which exists, so the loader reads it and raises `IOError` instead of `TemplateNotFound` |
| Source.UpToDateAfterWrite | kokki/source.py:58 | rewriting the template file makes the check report whether the new time equals the old one; writing any other path (other than the directory a trailing-slash path names) leaves it true |
| Source.EnsureTrailingNewline | kokki/source.py:76 | the result ends with '\n', extends the rendering by at most one character, and is the rendering itself when that already ends with '\n' |
| Source.NewlineRuleAddsNoBlankLine | kokki/source.py:76 | the output ends with "\n\n" exactly when the rendering already did |
| Source.NewlineRuleIdempotent | kokki/source.py:76 | applying the newline rule twice equals applying it once |
| Source.WithBuiltins | kokki/source.py:69-74 | the context gains exactly `env`, `repr`, `str` and `bool`, bound to those objects; every other key keeps its value |
| Source.WithBuiltinsIdempotent | kokki/source.py:69-74 | a second update with the builtins leaves the context unchanged |
| Source.Template.Create | kokki/source.py:61-66 | the template gets a fresh context holding a copy of the caller's variables (empty when none), and construction raises whatever loading the template raises |
| Source.Template.ContentFor | kokki/source.py:75-76 | the text ends with '\n' and is the rendering with the builtins, extended by at most that one character, and is the rendering itself when that already ends with '\n' |
| Source.Template.GetContent | kokki/source.py:68-76 | the template's own context gains the builtins, and the text is the newline rule applied to rendering the loaded source with that context |
| Source.RenderWithCallerVariables | kokki/source.py:61-76 | building and rendering a template leaves the caller's variables unchanged while rendering them extended with the builtins |
| Source.DownloadInit | kokki/source.py:80-88 | `download_path` defaults to /var/tmp/downloads only when absent; on success the directory exists afterwards; it fails exactly for a non-string path or an empty one that does not exist; files and modification times are untouched, and the only directory added is the download directory, when it did not exist |
| Source.CacheFileNameIsPlain | kokki/source.py:91 | the cache entry name is one path component, free of query and fragment |
| Source.DirectoryUrlHasEmptyCacheName | kokki/source.py:91 | a URL whose path ends in '/' (the root of a site, say) has an empty cache entry name |
| Source.DownloadPath | kokki/source.py:93 | the download directory is the configured string; a missing one raises `AttributeError`, and so does any other value, which has no `endswith` for `os.path.join` |
| Source.FromCache | kokki/source.py:97-117 | with an existing entry: no fetch means nothing written; fetched bytes are the server's; the disk changes only after a successful refetch under a truthy md5sum |
| Source.Download | kokki/source.py:90-117 | no fetch means the disk is unchanged; returned fetched bytes are what the server serves; the disk changes only with caching on, a truthy md5sum and a successful refetch; no file or directory appears or disappears |
| Source.DownloadWithoutCache | kokki/source.py:93-95 | with caching off: one fetch, its bytes returned, and nothing written |
| Source.DownloadCacheMiss | kokki/source.py:93-95 | with caching on and no entry: one fetch, its bytes returned, and nothing written |
| Source.DownloadOfDirectoryUrlRaises | kokki/source.py:91-100 | with caching on, a URL with an empty cache name makes the cache entry the download directory itself: it exists, so nothing is fetched and reading it raises `IOError` |
| Source.DownloadCacheHit | kokki/source.py:97-103 | with an entry and no md5sum (or a matching one): the cached bytes, no fetch, and nothing written |
| Source.DownloadCacheStale | kokki/source.py:103-116 | with an entry not matching a truthy md5sum: one fetch whose bytes are returned and replace that entry alone |
| Source.DownloadRefetchThenHit | kokki/source.py:103-116 | after a refetch whose bytes match the checksum, the next call is a cache hit with the same bytes |
| Source.DownloadMissRepeats | kokki/source.py:93-95 | a cache miss is never stored: the next call fetches again and the disk is still unchanged |
| Source.DownloadSource.Create | kokki/source.py:80-88 | without an environment it raises AttributeError and touches nothing; otherwise configuration, disk and result are those of `DownloadInit` |
| Source.DownloadSource.GetContent | kokki/source.py:90-117 | the result and the disk afterwards are `Download` of the starting state, and the network sees exactly one request for the URL when it fetched, none otherwise |
| Source.GetChecksum | kokki/source.py:14-15 | no source has a checksum |
| Source.Call | kokki/source.py:17-18 | calling a source is its `get_content`: static files and templates leave disk and network alone; downloads behave as `Download` |
| KokkiSolo.MatchBracketed | kokki/kokki_solo.py:9-10 | a match's group 0 is `keyword[group1]`, group 1 holds no newline, and the input is group 0 possibly followed by one newline |
| KokkiSolo.MatchBracketedComplete | kokki/kokki_solo.py:9-10 | every `keyword[x]` with a newline-free `x`, with or without one final newline, matches with group 0 `keyword[x]` and group 1 `x` |
| KokkiSolo.RecipeAndRoleExclusive | kokki/kokki_solo.py:9-10 | no token matches both patterns |
| KokkiSolo.RecipeTokenMatches | kokki/kokki_solo.py:9 | `recipe[x]` matches the recipe pattern with group 1 `x` |
| KokkiSolo.RolePathUnderRoles | kokki/kokki_solo.py:20 | the role file is `<file_cache_path>/roles/<name>`, with no suffix added |
| KokkiSolo.RoleItem | kokki/kokki_solo.py:28-32 | an item of a role's run-list succeeds exactly when it is a string matching the recipe pattern, and then includes that token, without a final newline; it never changes the configuration, and a failing item changes nothing |
| KokkiSolo.RoleEffect | kokki/kokki_solo.py:19-34 | a missing role file raises `IOError` for its path and an unparsable one `ValueError`, both before anything changes; processing a role only adds to the included recipes |
| KokkiSolo.RoleWalk | kokki/kokki_solo.py:27-34 | walking a role's run-list never changes the configuration and only appends to the included recipes |
| KokkiSolo.RoleWalkAppend | kokki/kokki_solo.py:27-34 | walking two run-lists in a row is walking their concatenation, up to the first failure |
| KokkiSolo.RoleIncludesOnlyRecipeTokens | kokki/kokki_solo.py:28-30 | everything a role's run-list includes is a whole `recipe[x]` token with a newline-free `x`, and matches the recipe pattern |
| KokkiSolo.RoleWalkIncludesRecipeTokens | kokki/kokki_solo.py:28-31 | a role's leading recipe tokens are included whole, in order, before the rest of its run-list |
| KokkiSolo.NonRecipeItemFailsRole | kokki/kokki_solo.py:32 | the first string in a role's run-list that is not a recipe token raises AttributeError and includes nothing |
| KokkiSolo.RoleWithDataAndRunList | kokki/kokki_solo.py:19-27 | for a role file with a `data` object and a `run_list` list, processing it walks the list from the configuration updated with `data` |
| KokkiSolo.RoleEffectWalksRunList | kokki/kokki_solo.py:19-27 | once the role file is loaded, its `data` applied and its `run_list` iterable, processing the role is walking that run-list |
| KokkiSolo.RoleAppliesOwnDataFirst | kokki/kokki_solo.py:20-25 | afterwards the configuration is the old one updated with the role's own `data`, whether the run-list succeeds or fails; only the role's own file is read |
| KokkiSolo.NestedRoleIsNeverProcessed | kokki/kokki_solo.py:27-34 | a role whose run-list names another role keeps its data and earlier recipes, then raises AttributeError without reading the nested role |
| KokkiSolo.ProcessRole | kokki/kokki_solo.py:19-34 | the error raised and the Kitchen's configuration and includes afterwards are exactly `RoleEffect` of the state before; cookbook paths and the run flag are untouched |
| KokkiSolo.WalkRoleRunList | kokki/kokki_solo.py:27-34 | the error raised and the Kitchen's state afterwards are exactly `RoleWalk` of the role's run-list from the state before |
| KokkiSolo.NodeItem | kokki/kokki_solo.py:72-78 | an item of the node's run-list only adds to the included recipes; only a role token or a non-string can raise or change the configuration, and a non-string raises `TypeError` |
| KokkiSolo.NodeWalk | kokki/kokki_solo.py:71-78 | walking the node's run-list only adds to the included recipes |
| KokkiSolo.RoleFreeRunListNeverFails | kokki/kokki_solo.py:71-78 | a run-list of strings without role tokens never raises and never changes the configuration |
| KokkiSolo.NodeWalkAppend | kokki/kokki_solo.py:71-78 | walking two node run-lists in a row is walking their concatenation, up to the first failure |
| KokkiSolo.UnrecognizedTokenIsDropped | kokki/kokki_solo.py:71-78 | a string that is neither a recipe nor a role token has no effect wherever it appears |
| KokkiSolo.NodeRecipesInOrder | kokki/kokki_solo.py:71-75 | a node run-list of recipe tokens includes their bracket contents in order and changes nothing else |
| KokkiSolo.NodeRoleToken | kokki/kokki_solo.py:76-78 | a role token processes the role named by its bracket contents |
| KokkiSolo.LaterRoleWins | kokki/kokki_solo.py:76-78 | of two roles listed in turn, each with any run-list, the later one's `data` is applied last, so it wins on shared keys, unless the first role's run-list raises |
| KokkiSolo.RoleDataApplied | kokki/kokki_solo.py:76-78 | a role token whose file holds a `data` object applies that `data`, whatever the role's run-list then does |
| KokkiSolo.MainSpec | kokki/kokki_solo.py:50-79 | `main` returns -1, before any Kitchen exists, exactly when `file_cache_path` or `cookbook_path` is missing or the descriptor does not exist; it finishes exactly when, besides, the descriptor parses, its `run_list` exists and is iterable, and walking it from an empty Kitchen raises nothing, and the Kitchen it leaves is the one that walk built |
| KokkiSolo.WalkRunList | kokki/kokki_solo.py:71-78 | the error raised and the Kitchen's state afterwards are exactly `NodeWalk` of the run-list from the state before |
| KokkiSolo.RunSolo | kokki/kokki_solo.py:50-79 | the outcome and final Kitchen state are those of `MainSpec`; the Kitchen has the one cookbook path and has run exactly when the run-list finished without an exception |

## Left out

- Command-line parsing (`build_parser`, the `-c`, `-j` and `-v` options, `parser.error`), logging setup and the messages printed before `return -1` are not modelled. `RunSolo` starts from the options of the `kokki` section of the configuration file and the descriptor's path.
- Reading the configuration file with `SafeConfigParser` is not modelled; it is given as a map from option to value.
- JSON decoding is not modelled. A JSON file is either a decoded `Value` or `Unparsable`, which raises `ValueError`.
- A descriptor path that exists but cannot be opened (a directory, say) is not modelled; the descriptor is present or absent.
- The Kitchen itself (`Kitchen.include_recipe`, `add_cookbook_path`, `run`, its configuration object) is not part of this model. It is recorded as its configuration, the ordered list of included recipes, the cookbook paths and whether `run` was called.
- Iterate: a `run_list` that is a JSON object is iterated over its keys in Python, in hash order. The model raises `TypeError` there, since that order is not determined.
- Update: `dict.update` also accepts a list of key/value pairs. Only a JSON object `data` is applied; any other `data` raises `TypeError`.
- Rendering with Jinja is a parameter `render` of the template, a total function: errors raised while loading or rendering a template (a syntax error, an undefined variable used strictly, a failing filter) are not modelled. Such a rendering error would come after `get_content` has already updated the context.
- The text encoding of template sources is not modelled. `decode('utf-8')` is omitted, so the loader yields the file's bytes, and a file that is not valid UTF-8 does not raise.
- The branch taken when Jinja2 is not installed (`Template` raising on construction) is not modelled.
- The process-wide environment singleton (`Environment.get_instance()`) is not modelled. `StaticFile`, `TemplateLoader` and `Template` take their environment explicitly.
- WithBuiltins: `env`, `repr`, `str` and `bool` are bound to objects known only by name (`Object("env")` and so on), so a rendering cannot depend on the environment's contents; the render parameter sees the name only.
- The environment's `config` is a map of values. Attribute access on it is modelled as key lookup.
- `urlparse` is modelled for the path only. The URL is cut at '#' and '?', then a leading `scheme:` and `//netloc` are dropped. `;params` and the heuristics for schemes that look like port numbers are not modelled.
- UrlPath: `urlsplit` raises `ValueError` ("Invalid IPv6 URL") when the netloc holds only one of '[' and ']'; the model does not raise there and takes the path as for any other netloc.
- `os.makedirs` is modelled as adding the directory, or `OSError` for an empty name. Creating parents, permissions and races between the existence check and creation are not modelled.
- Modification times come from a parameter `now` at each write; the file system's clock is not modelled.
- Failures of writes are not modelled.
- Network failures are one `NetworkError`; timeouts, redirects and HTTP status codes are not modelled.
- The MD5 digest is a parameter `md5hex`; `hashlib` is not modelled.
- Paths are not normalised beyond trailing slashes: a path ending in '/' names the directory without them, as the operating system resolves it; `..`, `.`, repeated inner slashes and symbolic links are not modelled. A regular file named with a trailing '/' is not found (`ENOTDIR`).
- A directory created by `os.makedirs` gets no modification time in the model; only directories given with one have a time for `getmtime`.
- `kokki/cookbooks/flume/recipes/master.py` is a recipe using these sources, not part of this model.
