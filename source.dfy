/** The content sources of kokki/source.py: a static file of a cookbook, a template of a cookbook rendered
    with a context, and a download from a URL kept in a checksum-validated local cache. */
module Source {
  import opened Runtime
  import opened Paths

  newtype byte = b: int | 0 <= b < 256

  // ---------------------------------------------------------------------------------------------
  // The file system, the network and the environment the sources work against
  // ---------------------------------------------------------------------------------------------

  /** A snapshot of the file system: regular files and their bytes, directories (recorded without a
      trailing '/'), and the modification time of every file and directory that has one. */
  datatype Disk = Disk(files: map<string, seq<byte>>, dirs: set<string>, mtime: map<string, int>)
  {
    /** A directory, named with or without trailing slashes. */
    predicate IsDirectory(path: string) {
      path != "" && TrimTrailingSlashes(path) in dirs
    }

    /** `os.path.exists(path)` */
    predicate Exists(path: string) {
      path in files || IsDirectory(path)
    }

    /** `open(path).read()`: only a regular file can be read; a directory or a missing path raises. */
    function Read(path: string): (r: Result<seq<byte>>)
      ensures r.Ok? <==> path in files
      ensures r.Ok? ==> r.value == files[path]
      ensures r.Err? ==> r.error == IOError(path)
    {
      if path in files then Ok(files[path]) else Err(IOError(path))
    }

    /** `os.path.getmtime(path)`, which stats a directory under its trailing-slash-free name. */
    function GetMtime(path: string): Result<int> {
      var key := if path !in files && IsDirectory(path) then TrimTrailingSlashes(path) else path;
      if key in mtime then Ok(mtime[key]) else Err(OSError(path))
    }

    /** The disk after `open(path, 'w').write(data)` at time `now`. */
    function Write(path: string, data: seq<byte>, now: int): Disk {
      this.(files := files[path := data], mtime := mtime[path := now])
    }
  }

  /** A directory named with a trailing '/' exists and has the directory's modification time, yet it is no
      regular file to read: the reading raises. */
  lemma TrailingSlashNamesDirectory(disk: Disk, dir: string)
    requires dir in disk.dirs && dir != "" && dir[|dir| - 1] != '/'
    ensures disk.Exists(dir + "/")
    ensures dir + "/" !in disk.files ==>
      && disk.Read(dir + "/") == Err(IOError(dir + "/"))
      && disk.GetMtime(dir + "/") == if dir in disk.mtime then Ok(disk.mtime[dir]) else Err(OSError(dir + "/"))
  {
    TrimAppendedSlash(dir);
  }

  /** The file system as the one mutable object every source reads and the download cache writes. */
  class FileSystem {
    var files: map<string, seq<byte>>
    var dirs: set<string>
    var mtime: map<string, int>

    constructor (d: Disk)
      ensures Snapshot() == d
    {
      files, dirs, mtime := d.files, d.dirs, d.mtime;
    }

    function Snapshot(): Disk
      reads this
    {
      Disk(files, dirs, mtime)
    }

    /** `open(path, 'w')` and `write(data)`: replaces the file's bytes and stamps it with `now`. */
    method WriteFile(path: string, data: seq<byte>, now: int)
      modifies this
      ensures Snapshot() == old(Snapshot()).Write(path, data, now)
    {
      files := files[path := data];
      mtime := mtime[path := now];
    }

    /** `os.makedirs(path)` for a path that does not exist yet: the empty path is refused, and the
        directory is recorded under its trailing-slash-free name. */
    method MakeDirs(path: string) returns (err: Option<Exception>)
      modifies this
      ensures err == if path == "" then Some(OSError(path)) else None
      ensures Snapshot() == if path == "" then old(Snapshot())
                            else old(Snapshot()).(dirs := old(dirs) + {TrimTrailingSlashes(path)})
    {
      if path == "" {
        return Some(OSError(path));
      }
      dirs := dirs + {TrimTrailingSlashes(path)};
      err := None;
    }
  }

  /** The network: what each URL serves (None when `urlopen` fails) and the log of every request made. */
  class Network {
    const remote: string -> Option<seq<byte>>
    ghost var requests: seq<string>

    constructor (remote: string -> Option<seq<byte>>)
      ensures this.remote == remote && requests == []
    {
      this.remote := remote;
      requests := [];
    }

    /** `urllib2.urlopen(url).read()` */
    method Fetch(url: string) returns (body: Option<seq<byte>>)
      modifies this
      ensures body == remote(url)
      ensures requests == old(requests) + [url]
    {
      body := remote(url);
      requests := requests + [url];
    }
  }

  /** The kokki environment: its shared configuration and the root directory (`cb.path`) of each cookbook. */
  class Environment {
    var config: map<string, Value>
    var cookbooks: map<string, string>

    constructor (config: map<string, Value>, cookbooks: map<string, string>)
      ensures this.config == config && this.cookbooks == cookbooks
    {
      this.config := config;
      this.cookbooks := cookbooks;
    }
  }

  /** A Python dict, shared by reference between whoever holds it. */
  class Mapping {
    var entries: map<string, Value>

    constructor (entries: map<string, Value>)
      ensures this.entries == entries
    {
      this.entries := entries;
    }
  }

  // ---------------------------------------------------------------------------------------------
  // Naming a file of a cookbook
  // ---------------------------------------------------------------------------------------------

  function StaticFileFailure(name: string): string {
    "[StaticFile(" + name + ")] Path must include cookbook name (e.g. 'nginx/nginx.conf')"
  }

  function TemplateFailure(name: string): string {
    "[Template(" + name + ")] Path must include cookbook name (e.g. 'nginx/nginx.conf.j2')"
  }

  /** `os.path.join(cb.path, kind, rest)` for `cookbook, rest = name.split('/', 1)` and
      `cb = cookbooks[cookbook]`; `Fail(failure)` when the name holds no '/'. */
  function Locate(cookbooks: map<string, string>, name: string, kind: string, failure: string): (r: Result<string>)
    ensures '/' !in name <==> r.Err? && r.error.Fail?
    ensures '/' !in name ==> r == Err(Fail(failure))
    ensures r.Err? && !r.error.Fail? ==> r.error.KeyError? && '/' !in r.error.key && r.error.key !in cookbooks
    ensures r.Ok? ==> exists cookbook :: cookbook in cookbooks && '/' !in cookbook && cookbook + "/" <= name
  {
    match SplitFirst(name)
    case None => Err(Fail(failure))
    case Some((cookbook, rest)) =>
      if cookbook in cookbooks then Ok(Join(Join(cookbooks[cookbook], kind), rest))
      else Err(KeyError(cookbook))
  }

  /** Where a well-formed name leads: the cookbook is the text before the first '/', the path the text after
      it, and it lands under the cookbook's `kind` directory. */
  lemma {:induction false} LocateSplitsOnFirstSlash(cookbooks: map<string, string>, cookbook: string, rest: string, kind: string, failure: string)
    requires '/' !in cookbook
    ensures Locate(cookbooks, cookbook + "/" + rest, kind, failure) ==
      if cookbook in cookbooks then Ok(Join(Join(cookbooks[cookbook], kind), rest)) else Err(KeyError(cookbook))
  {
    SplitFirstAt(cookbook, rest);
  }

  // ---------------------------------------------------------------------------------------------
  // StaticFile
  // ---------------------------------------------------------------------------------------------

  /** `StaticFile(name, env)`: the bytes of a file below a cookbook's `files` directory. */
  datatype StaticFile = StaticFile(name: string, env: Environment)
  {
    function GetContent(disk: Disk): (r: Result<seq<byte>>)
      reads env
      ensures '/' !in name <==> r.Err? && r.error.Fail?
      ensures '/' !in name ==> r == Err(Fail(StaticFileFailure(name)))
      ensures r.Ok? ==> exists path :: path in disk.files && r.value == disk.files[path]
    {
      match Locate(env.cookbooks, name, "files", StaticFileFailure(name))
      case Err(e) => Err(e)
      case Ok(path) => disk.Read(path)
    }
  }

  /** A static file named `cookbook/rest` yields, untransformed, the bytes at `files/rest` below the
      cookbook's directory, and fails exactly when that is not a regular file. */
  lemma StaticFileReadsFilesDirectory(f: StaticFile, disk: Disk, cookbook: string, rest: string)
    requires f.name == cookbook + "/" + rest && '/' !in cookbook
    requires cookbook in f.env.cookbooks
    ensures var path := Join(Join(f.env.cookbooks[cookbook], "files"), rest);
      && (f.GetContent(disk).Ok? <==> path in disk.files)
      && (path in disk.files ==> f.GetContent(disk) == Ok(disk.files[path]))
  {
    LocateSplitsOnFirstSlash(f.env.cookbooks, cookbook, rest, "files", StaticFileFailure(f.name));
  }

  // ---------------------------------------------------------------------------------------------
  // TemplateLoader
  // ---------------------------------------------------------------------------------------------

  /** The up-to-date check the loader hands to Jinja: the modification time seen at load, for `path`. */
  datatype UpToDate = UpToDate(path: string, mtime: int)
  {
    /** `mtime == os.path.getmtime(path)`, evaluated against the disk as it is when Jinja asks. */
    function Check(disk: Disk): (r: Result<bool>)
      ensures r == Ok(true) <==> disk.GetMtime(path) == Ok(mtime)
      ensures r == Ok(false) <==> disk.GetMtime(path).Ok? && disk.GetMtime(path).value != mtime
      ensures r.Err? ==> r.error == OSError(path)
    {
      match disk.GetMtime(path)
      case Err(e) => Err(e)
      case Ok(current) => Ok(current == mtime)
    }
  }

  /** What `get_source` returns: the template's bytes, its file name and its up-to-date check. */
  datatype LoadedSource = LoadedSource(source: seq<byte>, filename: string, uptodate: UpToDate)

  /** `TemplateLoader(env)`: the Jinja loader that finds templates below a cookbook's `templates` directory. */
  datatype TemplateLoader = TemplateLoader(env: Environment)
  {
    function GetSource(disk: Disk, template: string): (r: Result<LoadedSource>)
      reads env
      ensures '/' !in template <==> r.Err? && r.error.Fail?
      ensures '/' !in template ==> r == Err(Fail(TemplateFailure(template)))
      ensures r.Ok? ==> r.value.filename in disk.files && r.value.source == disk.files[r.value.filename]
      ensures r.Ok? ==> r.value.uptodate.path == r.value.filename && r.value.uptodate.Check(disk) == Ok(true)
    {
      match Locate(env.cookbooks, template, "templates", TemplateFailure(template))
      case Err(e) => Err(e)
      case Ok(path) =>
        if !disk.Exists(path) then Err(TemplateNotFound(template + " at " + path))
        else
          match disk.GetMtime(path)
          case Err(e) => Err(e)
          case Ok(mtime) =>
            match disk.Read(path)
            case Err(e) => Err(e)
            case Ok(source) => Ok(LoadedSource(source, path, UpToDate(path, mtime)))
    }
  }

  /** A template named `cookbook/rest` is looked up at `templates/rest` below the cookbook's directory:
      `TemplateNotFound` exactly when nothing exists there, and otherwise, for a regular file with a
      modification time, its bytes together with that time. */
  lemma TemplateLoaderFindsTemplatesDirectory(loader: TemplateLoader, disk: Disk, cookbook: string, rest: string)
    requires '/' !in cookbook && cookbook in loader.env.cookbooks
    ensures var name := cookbook + "/" + rest;
      var path := Join(Join(loader.env.cookbooks[cookbook], "templates"), rest);
      var r := loader.GetSource(disk, name);
      && (r.Err? && r.error.TemplateNotFound? <==> !disk.Exists(path))
      && (path in disk.files && path in disk.mtime ==>
            r == Ok(LoadedSource(disk.files[path], path, UpToDate(path, disk.mtime[path]))))
  {
    var name := cookbook + "/" + rest;
    LocateSplitsOnFirstSlash(loader.env.cookbooks, cookbook, rest, "templates", TemplateFailure(name));
  }

  /** A name that stops at the cookbook, `cookbook/`, points at the `templates` directory itself: that
      exists and has a modification time, so the loader goes on to read it, and the reading raises. */
  lemma TemplateDirectoryIsNotATemplate(loader: TemplateLoader, disk: Disk, cookbook: string)
    requires '/' !in cookbook && cookbook in loader.env.cookbooks
    requires var templates := Join(loader.env.cookbooks[cookbook], "templates");
      templates in disk.dirs && templates in disk.mtime && templates + "/" !in disk.files
    ensures var path := Join(Join(loader.env.cookbooks[cookbook], "templates"), "");
      loader.GetSource(disk, cookbook + "/") == Err(IOError(path))
  {
    var templates := Join(loader.env.cookbooks[cookbook], "templates");
    assert templates[|templates| - 1] == "templates"[8] == 's';
    assert Join(templates, "") == templates + "/";
    assert cookbook + "/" + "" == cookbook + "/";
    LocateSplitsOnFirstSlash(loader.env.cookbooks, cookbook, "", "templates", TemplateFailure(cookbook + "/"));
    TrailingSlashNamesDirectory(disk, templates);
  }

  /** Once the template file is rewritten with another modification time the check reports it stale, and
      rewriting any other path, save the directory a trailing-slash path names, leaves it as it was. */
  lemma UpToDateAfterWrite(u: UpToDate, disk: Disk, path: string, data: seq<byte>, now: int)
    requires u.Check(disk) == Ok(true)
    ensures path == u.path ==> u.Check(disk.Write(path, data, now)) == Ok(now == u.mtime)
    ensures path != u.path && path != TrimTrailingSlashes(u.path) ==> u.Check(disk.Write(path, data, now)) == Ok(true)
  {
  }

  // ---------------------------------------------------------------------------------------------
  // Template
  // ---------------------------------------------------------------------------------------------

  /** `Template.get_content`'s newline rule: a rendering that does not end with '\n' gets one appended. */
  function EnsureTrailingNewline(rendered: string): (r: string)
    ensures |r| > 0 && r[|r| - 1] == '\n'
    ensures rendered <= r && |r| <= |rendered| + 1
    ensures |rendered| > 0 && rendered[|rendered| - 1] == '\n' ==> r == rendered
  {
    if |rendered| > 0 && rendered[|rendered| - 1] == '\n' then rendered else rendered + "\n"
  }

  predicate EndsWithTwoNewlines(s: string) {
    |s| >= 2 && s[|s| - 2..] == "\n\n"
  }

  /** The rule never adds a second trailing newline: the output ends with "\n\n" exactly when the
      rendering already did. */
  lemma NewlineRuleAddsNoBlankLine(rendered: string)
    ensures EndsWithTwoNewlines(EnsureTrailingNewline(rendered)) <==> EndsWithTwoNewlines(rendered)
  {
    var r := EnsureTrailingNewline(rendered);
    if r != rendered {
      assert r == rendered + "\n";
      assert |rendered| > 0 ==> rendered[|rendered| - 1] != '\n';
      assert |r| >= 2 ==> r[|r| - 2] == rendered[|rendered| - 1];
    }
  }

  /** Applying the rule to its own output changes nothing. */
  lemma NewlineRuleIdempotent(rendered: string)
    ensures EnsureTrailingNewline(EnsureTrailingNewline(rendered)) == EnsureTrailingNewline(rendered)
  {
  }

  /** The context after `self.context.update(env=..., repr=repr, str=str, bool=bool)`. */
  function WithBuiltins(context: map<string, Value>): (r: map<string, Value>)
    ensures r.Keys == context.Keys + {"env", "repr", "str", "bool"}
    ensures forall k :: k in context && k != "env" && k != "repr" && k != "str" && k != "bool" ==> r[k] == context[k]
    ensures r["env"] == Object("env") && r["repr"] == Object("repr")
    ensures r["str"] == Object("str") && r["bool"] == Object("bool")
  {
    context["env" := Object("env")]["repr" := Object("repr")]["str" := Object("str")]["bool" := Object("bool")]
  }

  /** Updating the context again with the same entries leaves it as it is: repeated `get_content` calls
      render against the same context. */
  lemma WithBuiltinsIdempotent(context: map<string, Value>)
    ensures WithBuiltins(WithBuiltins(context)) == WithBuiltins(context)
  {
  }

  /** `Template(name, variables, env)`: a compiled template of a cookbook and the rendering context it owns. */
  class Template {
    const name: string
    const env: Environment
    /** `self.context`, a dict of the template's own, never the caller's `variables`. */
    const context: Mapping
    /** What the loader returned for `name` when the template was compiled. */
    const loaded: LoadedSource
    /** Jinja's rendering of a template source with a context. */
    const render: (seq<byte>, map<string, Value>) -> string

    constructor Init(name: string, env: Environment, context: Mapping, loaded: LoadedSource,
                     render: (seq<byte>, map<string, Value>) -> string)
      ensures this.name == name && this.env == env && this.context == context
      ensures this.loaded == loaded && this.render == render
    {
      this.name := name;
      this.env := env;
      this.context := context;
      this.loaded := loaded;
      this.render := render;
    }

    /** `Template.__init__`: copies the caller's variables into a new dict, then loads the template,
        raising whatever the loader raises. */
    static method Create(name: string, variables: Mapping?, env: Environment, fs: FileSystem,
                         render: (seq<byte>, map<string, Value>) -> string)
      returns (r: Result<Template>)
      ensures var loaded := TemplateLoader(env).GetSource(fs.Snapshot(), name);
        && (loaded.Err? ==> r == Err(loaded.error))
        && (loaded.Ok? ==>
              && r.Ok? && fresh(r.value) && fresh(r.value.context)
              && r.value.name == name && r.value.env == env
              && r.value.loaded == loaded.value && r.value.render == render
              && r.value.context.entries == (if variables == null then map[] else variables.entries))
    {
      var copy := new Mapping(if variables == null then map[] else variables.entries);
      var loaded := TemplateLoader(env).GetSource(fs.Snapshot(), name);
      if loaded.Err? {
        return Err(loaded.error);
      }
      var t := new Template.Init(name, env, copy, loaded.value, render);
      r := Ok(t);
    }

    /** The text `get_content` returns when the context holds `entries` beforehand. */
    function ContentFor(entries: map<string, Value>): (text: string)
      ensures |text| > 0 && text[|text| - 1] == '\n'
      ensures render(loaded.source, WithBuiltins(entries)) <= text
      ensures |text| <= |render(loaded.source, WithBuiltins(entries))| + 1
      ensures var rendered := render(loaded.source, WithBuiltins(entries));
        |rendered| > 0 && rendered[|rendered| - 1] == '\n' ==> text == rendered
    {
      EnsureTrailingNewline(render(loaded.source, WithBuiltins(entries)))
    }

    /** `Template.get_content`: overwrites the four builtin keys of its own context, renders, and applies
        the newline rule. */
    method GetContent() returns (text: string)
      modifies context
      ensures context.entries == WithBuiltins(old(context.entries))
      ensures text == ContentFor(old(context.entries))
    {
      context.entries := WithBuiltins(context.entries);
      var rendered := render(loaded.source, context.entries);
      text := if |rendered| > 0 && rendered[|rendered| - 1] == '\n' then rendered else rendered + "\n";
    }
  }

  /** A caller that builds a template from its own dict and renders it finds its dict as it was: the
      template renders a copy, extended with the builtins. */
  method RenderWithCallerVariables(name: string, variables: Mapping, env: Environment, fs: FileSystem,
                                   render: (seq<byte>, map<string, Value>) -> string)
    returns (r: Result<string>)
    ensures variables.entries == old(variables.entries)
    ensures var loaded := TemplateLoader(env).GetSource(fs.Snapshot(), name);
      && (loaded.Err? ==> r == Err(loaded.error))
      && (loaded.Ok? ==> r == Ok(EnsureTrailingNewline(render(loaded.value.source, WithBuiltins(variables.entries)))))
  {
    var t := Template.Create(name, variables, env, fs, render);
    if t.Err? {
      return Err(t.error);
    }
    var text := t.value.GetContent();
    r := Ok(text);
  }

  // ---------------------------------------------------------------------------------------------
  // DownloadSource
  // ---------------------------------------------------------------------------------------------

  const DefaultDownloadPath := "/var/tmp/downloads"

  /** What the constructor leaves behind: the configuration, the download directory (or the error that
      stopped it) and the disk. */
  datatype InitStep = InitStep(config: map<string, Value>, directory: Result<string>, disk: Disk)

  /** `DownloadSource.__init__` on `env.config`: `download_path` defaults to /var/tmp/downloads only when
      absent, and a directory that does not exist yet is created. */
  function DownloadInit(config: map<string, Value>, disk: Disk): (s: InitStep)
    ensures "download_path" in config ==> s.config == config
    ensures "download_path" !in config ==> s.config == config["download_path" := Str(DefaultDownloadPath)]
    ensures s.directory.Ok? ==> s.config["download_path"] == Str(s.directory.value) && s.disk.Exists(s.directory.value)
    ensures s.directory.Err? <==> !s.config["download_path"].Str? || (s.config["download_path"] == Str("") && !disk.Exists(""))
    ensures s.disk.files == disk.files && s.disk.mtime == disk.mtime
    ensures s.disk.dirs == disk.dirs ||
      (s.directory.Ok? && !disk.Exists(s.directory.value) && s.disk.dirs == disk.dirs + {TrimTrailingSlashes(s.directory.value)})
  {
    var config' := if "download_path" in config then config else config["download_path" := Str(DefaultDownloadPath)];
    match config'["download_path"]
    case Str(dir) =>
      if disk.Exists(dir) then InitStep(config', Ok(dir), disk)
      else if dir == "" then InitStep(config', Err(OSError(dir)), disk)
      else InitStep(config', Ok(dir), disk.(dirs := disk.dirs + {TrimTrailingSlashes(dir)}))
    case _ => InitStep(config', Err(TypeError("coercing to Unicode: need string or buffer")), disk)
  }

  /** `md5sum` is checked only when truthy: set and not the empty string. */
  predicate IsSet(md5sum: Option<string>) {
    md5sum.Some? && md5sum.value != ""
  }

  /** `os.path.basename(urlparse(url).path)`: the name of the cache entry for `url`. */
  function CacheFileName(url: string): string {
    Basename(UrlPath(url))
  }

  /** The cache entry's name is a single path component, free of query and fragment. */
  lemma CacheFileNameIsPlain(url: string)
    ensures var name := CacheFileName(url);
      '/' !in name && '?' !in name && '#' !in name
  {
    var path := UrlPath(url);
    var name := Basename(path);
    assert '#' !in path && '?' !in path by {
      UrlPathDropsQueryAndFragment(url);
    }
    assert '/' !in name && |name| <= |path| && path[|path| - |name|..] == name by {
      BasenameIsLastComponent(path);
    }
    SuffixLacks(path, name, '?');
    SuffixLacks(path, name, '#');
  }

  /** `self.env.config.download_path` as the directory `os.path.join` starts from: a value that is not a
      string has no `endswith`, which the join calls on it. */
  function DownloadPath(config: map<string, Value>): (r: Result<string>)
    ensures r.Ok? <==> "download_path" in config && config["download_path"].Str?
    ensures r.Ok? ==> config["download_path"] == Str(r.value)
    ensures r.Err? ==> r.error.AttributeError?
  {
    if "download_path" !in config then Err(AttributeError("download_path"))
    else match config["download_path"]
      case Str(dir) => Ok(dir)
      case _ => Err(AttributeError("object has no attribute 'endswith'"))
  }

  /** What one `get_content` call does: what it returns, whether it asked the network, and the disk after it. */
  datatype DownloadStep = DownloadStep(content: Result<seq<byte>>, fetched: bool, disk: Disk)

  /** A fetch whose bytes are returned and not stored. */
  function FetchOnly(url: string, remote: string -> Option<seq<byte>>, disk: Disk): DownloadStep {
    match remote(url)
    case None => DownloadStep(Err(NetworkError(url)), true, disk)
    case Some(body) => DownloadStep(Ok(body), true, disk)
  }

  /** The path of the cache entry for `url` in the download directory `dir`. */
  function CachePath(dir: string, url: string): string {
    Join(dir, CacheFileName(url))
  }

  /** The branch of `get_content` taken when caching is on and `path` exists: the cached bytes, refetched
      and rewritten when a truthy `md5sum` does not match their digest. */
  function FromCache(url: string, path: string, md5sum: Option<string>, disk: Disk,
                     remote: string -> Option<seq<byte>>, md5hex: seq<byte> -> string, now: int): (s: DownloadStep)
    ensures !s.fetched ==> s.disk == disk
    ensures s.fetched && s.content.Ok? ==> remote(url) == Some(s.content.value)
    ensures s.disk != disk ==> IsSet(md5sum) && s.fetched && s.content.Ok?
    ensures s.disk.dirs == disk.dirs && s.disk.files.Keys == disk.files.Keys
  {
    match disk.Read(path)
    case Err(e) => DownloadStep(Err(e), false, disk)
    case Ok(cached) =>
      if IsSet(md5sum) && md5hex(cached) != md5sum.value then
        match remote(url)
        case None => DownloadStep(Err(NetworkError(url)), true, disk)
        case Some(body) => DownloadStep(Ok(body), true, disk.Write(path, body, now))
      else DownloadStep(Ok(cached), false, disk)
  }

  /** `DownloadSource.get_content` for a source of `url` with the given `cache` flag and `md5sum`, against
      the configuration, the disk, what the network serves, the digest function and the clock. */
  function Download(url: string, cache: bool, md5sum: Option<string>, config: map<string, Value>, disk: Disk,
                    remote: string -> Option<seq<byte>>, md5hex: seq<byte> -> string, now: int): (s: DownloadStep)
    ensures !s.fetched ==> s.disk == disk
    ensures s.fetched && s.content.Ok? ==> remote(url) == Some(s.content.value)
    ensures s.disk != disk ==> cache && IsSet(md5sum) && s.fetched && s.content.Ok?
    ensures s.disk.dirs == disk.dirs && s.disk.files.Keys == disk.files.Keys
  {
    if !cache then FetchOnly(url, remote, disk)
    else match DownloadPath(config)
      case Err(e) => DownloadStep(Err(e), false, disk)
      case Ok(dir) =>
        var path := CachePath(dir, url);
        if !disk.Exists(path) then FetchOnly(url, remote, disk)
        else FromCache(url, path, md5sum, disk, remote, md5hex, now)
  }

  /** Caching off: one fetch, its bytes returned, nothing written, whatever the cache holds. */
  lemma DownloadWithoutCache(url: string, md5sum: Option<string>, config: map<string, Value>, disk: Disk,
                             remote: string -> Option<seq<byte>>, md5hex: seq<byte> -> string, now: int)
    ensures var s := Download(url, false, md5sum, config, disk, remote, md5hex, now);
      && s.fetched && s.disk == disk
      && s.content == (if remote(url).Some? then Ok(remote(url).value) else Err(NetworkError(url)))
  {
  }

  /** Caching on but no cache entry: one fetch, its bytes returned, and still nothing written. */
  lemma DownloadCacheMiss(url: string, md5sum: Option<string>, config: map<string, Value>, disk: Disk,
                          remote: string -> Option<seq<byte>>, md5hex: seq<byte> -> string, now: int, dir: string)
    requires DownloadPath(config) == Ok(dir) && !disk.Exists(CachePath(dir, url))
    ensures var s := Download(url, true, md5sum, config, disk, remote, md5hex, now);
      && s.fetched && s.disk == disk
      && s.content == (if remote(url).Some? then Ok(remote(url).value) else Err(NetworkError(url)))
  {
  }

  /** A URL whose path ends in '/' has an empty cache name, so its cache entry is the download directory
      itself: that exists, so with caching on the call reads it instead of fetching, and the reading raises. */
  lemma DownloadOfDirectoryUrlRaises(url: string, md5sum: Option<string>, config: map<string, Value>, disk: Disk,
                                     remote: string -> Option<seq<byte>>, md5hex: seq<byte> -> string, now: int,
                                     dir: string)
    requires DownloadPath(config) == Ok(dir) && dir in disk.dirs && dir != "" && dir[|dir| - 1] != '/'
    requires CacheFileName(url) == "" && dir + "/" !in disk.files
    ensures Download(url, true, md5sum, config, disk, remote, md5hex, now) == DownloadStep(Err(IOError(dir + "/")), false, disk)
  {
    assert CachePath(dir, url) == dir + "/";
    TrailingSlashNamesDirectory(disk, dir);
  }

  /** Every URL whose path ends in '/', such as the root of a site, is such a URL. */
  lemma DirectoryUrlHasEmptyCacheName(url: string)
    requires var path := UrlPath(url); |path| > 0 && path[|path| - 1] == '/'
    ensures CacheFileName(url) == ""
  {
    var path := UrlPath(url);
    assert LastIndexOf(path, '/') == |path| - 1;
  }

  /** Caching on, an entry present, and no checksum or a matching one: no fetch, the cached bytes
      returned, nothing written. */
  lemma DownloadCacheHit(url: string, md5sum: Option<string>, config: map<string, Value>, disk: Disk,
                         remote: string -> Option<seq<byte>>, md5hex: seq<byte> -> string, now: int, dir: string)
    requires DownloadPath(config) == Ok(dir)
    requires CachePath(dir, url) in disk.files
    requires IsSet(md5sum) ==> md5hex(disk.files[CachePath(dir, url)]) == md5sum.value
    ensures Download(url, true, md5sum, config, disk, remote, md5hex, now) ==
      DownloadStep(Ok(disk.files[CachePath(dir, url)]), false, disk)
  {
  }

  /** Caching on, an entry present, and a checksum it does not match: one fetch, whose bytes are returned
      and replace that entry alone. */
  lemma DownloadCacheStale(url: string, md5sum: Option<string>, config: map<string, Value>, disk: Disk,
                           remote: string -> Option<seq<byte>>, md5hex: seq<byte> -> string, now: int,
                           dir: string, body: seq<byte>)
    requires DownloadPath(config) == Ok(dir)
    requires CachePath(dir, url) in disk.files
    requires IsSet(md5sum) && md5hex(disk.files[CachePath(dir, url)]) != md5sum.value
    requires remote(url) == Some(body)
    ensures var s := Download(url, true, md5sum, config, disk, remote, md5hex, now);
      && s.content == Ok(body) && s.fetched
      && s.disk.files == disk.files[CachePath(dir, url) := body]
      && s.disk.dirs == disk.dirs
      && forall p :: p in disk.mtime && p != CachePath(dir, url) ==> p in s.disk.mtime && s.disk.mtime[p] == disk.mtime[p]
  {
  }

  /** After a refetch whose bytes carry the expected checksum, the next call trusts the cache: no
      further fetch, the same bytes, nothing written. */
  lemma {:induction false} DownloadRefetchThenHit(url: string, md5sum: Option<string>, config: map<string, Value>,
                                                  disk: Disk, remote: string -> Option<seq<byte>>,
                                                  md5hex: seq<byte> -> string, now: int, later: int,
                                                  dir: string, body: seq<byte>)
    requires DownloadPath(config) == Ok(dir)
    requires CachePath(dir, url) in disk.files
    requires IsSet(md5sum) && md5hex(disk.files[CachePath(dir, url)]) != md5sum.value
    requires remote(url) == Some(body) && md5hex(body) == md5sum.value
    ensures var first := Download(url, true, md5sum, config, disk, remote, md5hex, now);
      Download(url, true, md5sum, config, first.disk, remote, md5hex, later) == DownloadStep(Ok(body), false, first.disk)
  {
    DownloadCacheStale(url, md5sum, config, disk, remote, md5hex, now, dir, body);
    var first := Download(url, true, md5sum, config, disk, remote, md5hex, now);
    DownloadCacheHit(url, md5sum, config, first.disk, remote, md5hex, later, dir);
  }

  /** A cache miss never fills the cache: every later call misses and fetches again. */
  lemma {:induction false} DownloadMissRepeats(url: string, md5sum: Option<string>, config: map<string, Value>,
                                               disk: Disk, remote: string -> Option<seq<byte>>,
                                               md5hex: seq<byte> -> string, now: int, later: int, dir: string)
    requires DownloadPath(config) == Ok(dir) && !disk.Exists(CachePath(dir, url))
    ensures var first := Download(url, true, md5sum, config, disk, remote, md5hex, now);
      var second := Download(url, true, md5sum, config, first.disk, remote, md5hex, later);
      first.fetched && second.fetched && second.disk == disk
  {
    DownloadCacheMiss(url, md5sum, config, disk, remote, md5hex, now, dir);
    DownloadCacheMiss(url, md5sum, config, disk, remote, md5hex, later, dir);
  }

  /** `DownloadSource(url, cache, md5sum, env)`. */
  class DownloadSource {
    const env: Environment
    const url: string
    const md5sum: Option<string>
    const cache: bool

    constructor Init(url: string, cache: bool, md5sum: Option<string>, env: Environment)
      ensures this.url == url && this.cache == cache && this.md5sum == md5sum && this.env == env
    {
      this.env := env;
      this.url := url;
      this.md5sum := md5sum;
      this.cache := cache;
    }

    /** `DownloadSource.__init__`: it reads `config` through the `env` argument, so without one it raises;
        otherwise it defaults `download_path` and creates that directory when it does not exist. */
    static method Create(url: string, cache: bool, md5sum: Option<string>, env: Environment?, fs: FileSystem)
      returns (r: Result<DownloadSource>)
      modifies env, fs
      ensures env == null ==> r == Err(AttributeError("'NoneType' object has no attribute 'config'"))
      ensures env == null ==> fs.Snapshot() == old(fs.Snapshot())
      ensures env != null ==>
        var s := DownloadInit(old(env.config), old(fs.Snapshot()));
        && env.config == s.config && env.cookbooks == old(env.cookbooks) && fs.Snapshot() == s.disk
        && (s.directory.Err? ==> r == Err(s.directory.error))
        && (s.directory.Ok? ==> r.Ok? && fresh(r.value) && r.value.env == env && r.value.url == url
                                && r.value.cache == cache && r.value.md5sum == md5sum)
    {
      if env == null {
        return Err(AttributeError("'NoneType' object has no attribute 'config'"));
      }
      if "download_path" !in env.config {
        env.config := env.config["download_path" := Str(DefaultDownloadPath)];
      }
      var dir := env.config["download_path"];
      if !dir.Str? {
        return Err(TypeError("coercing to Unicode: need string or buffer"));
      }
      if !fs.Snapshot().Exists(dir.s) {
        var err := fs.MakeDirs(dir.s);
        if err.Some? {
          return Err(err.value);
        }
      }
      var d := new DownloadSource.Init(url, cache, md5sum, env);
      r := Ok(d);
    }

    /** `DownloadSource.get_content`: every request it makes is for `url`, and what it returns and leaves
        on disk is `Download` of the configuration and the disk it started from. */
    method GetContent(fs: FileSystem, net: Network, md5hex: seq<byte> -> string, now: int)
      returns (r: Result<seq<byte>>)
      modifies fs, net
      ensures var s := Download(url, cache, md5sum, env.config, old(fs.Snapshot()), net.remote, md5hex, now);
        && r == s.content && fs.Snapshot() == s.disk
        && net.requests == old(net.requests) + (if s.fetched then [url] else [])
    {
      var file := CacheFileName(url);
      if !cache {
        var body := net.Fetch(url);
        return if body.Some? then Ok(body.value) else Err(NetworkError(url));
      }
      var dir := DownloadPath(env.config);
      if dir.Err? {
        return Err(dir.error);
      }
      var path := Join(dir.value, file);
      assert path == CachePath(dir.value, url);
      if !fs.Snapshot().Exists(path) {
        var body := net.Fetch(url);
        return if body.Some? then Ok(body.value) else Err(NetworkError(url));
      }
      var update := false;
      var read := fs.Snapshot().Read(path);
      if read.Err? {
        return Err(read.error);
      }
      var content := read.value;
      if IsSet(md5sum) {
        var md5 := md5hex(content);
        if md5 != md5sum.value {
          var body := net.Fetch(url);
          if body.None? {
            return Err(NetworkError(url));
          }
          content := body.value;
          update := true;
        }
      }
      if cache && update {
        fs.WriteFile(path, content, now);
      }
      r := Ok(content);
    }
  }

  // ---------------------------------------------------------------------------------------------
  // Source
  // ---------------------------------------------------------------------------------------------

  /** A content source of any of the three kinds. */
  datatype Source =
    | StaticSource(file: StaticFile)
    | TemplateSource(template: Template)
    | DownloadFrom(download: DownloadSource)

  /** What a source yields: bytes from a file or a download, text from a template. */
  datatype Content = Bytes(bytes: seq<byte>) | Text(text: string)

  function AsBytes(r: Result<seq<byte>>): Result<Content> {
    match r
    case Ok(b) => Ok(Bytes(b))
    case Err(e) => Err(e)
  }

  /** `Source.get_checksum`, which no kind of source overrides. */
  function GetChecksum(source: Source): (r: Option<seq<byte>>)
    ensures r == None
  {
    None
  }

  /** `Source.__call__`: calling a source is its `get_content`. */
  method Call(source: Source, fs: FileSystem, net: Network, md5hex: seq<byte> -> string, now: int)
    returns (r: Result<Content>)
    modifies fs, net, if source.TemplateSource? then {source.template.context} else {}
    ensures source.StaticSource? ==>
      && r == AsBytes(source.file.GetContent(old(fs.Snapshot())))
      && fs.Snapshot() == old(fs.Snapshot()) && net.requests == old(net.requests)
    ensures source.TemplateSource? ==>
      && r == Ok(Text(source.template.ContentFor(old(source.template.context.entries))))
      && source.template.context.entries == WithBuiltins(old(source.template.context.entries))
      && fs.Snapshot() == old(fs.Snapshot()) && net.requests == old(net.requests)
    ensures source.DownloadFrom? ==>
      var d := source.download;
      var s := Download(d.url, d.cache, d.md5sum, d.env.config, old(fs.Snapshot()), net.remote, md5hex, now);
      && r == AsBytes(s.content) && fs.Snapshot() == s.disk
      && net.requests == old(net.requests) + (if s.fetched then [d.url] else [])
  {
    match source
    case StaticSource(file) =>
      r := AsBytes(file.GetContent(fs.Snapshot()));
    case TemplateSource(template) =>
      var text := template.GetContent();
      r := Ok(Text(text));
    case DownloadFrom(download) =>
      var bytes := download.GetContent(fs, net, md5hex, now);
      r := AsBytes(bytes);
  }
}
