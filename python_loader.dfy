/**
 * The path helpers of the Python application loader
 * (src/pythonapp_loader/jrtc_pythonapp_loader.c): the folder a script
 * lives in, added to the interpreter's search path, and the module name it
 * is imported under. A NULL C string is `None`.
 */
module PythonLoader {
  import opened Wrappers
  import opened CString

  /** `get_folder`: "./" for NULL or a bare file name, "/" for a file at the root, else everything before the last '/'. */
  function GetFolder(path: Option<string>): (r: string)
    ensures r == "./" || r == "/" || (path.Some? && r < path.value && path.value[|r|] == '/' && |r| > 0)
    ensures path.None? || '/' !in path.value ==> r == "./"
  {
    if path.None? then "./"
    else
      match LastIndexOf(path.value, '/')
      case None => "./"
      case Some(k) => if k == 0 then "/" else path.value[..k]
  }

  /** `get_file_name_without_py`: the file name, less its last extension when that is exactly ".py". */
  function GetFileNameWithoutPy(path: Option<string>): (r: Option<string>)
    ensures r.Some? <==> path.Some?
    ensures r.Some? ==> '/' !in r.value && |r.value| <= |path.value|
  {
    if path.None? then None else Some(WithoutPy(FileName(path.value)))
  }

  /**
   * A name less its last extension when that is exactly ".py" (the `strcmp`
   * against ".py"): a prefix of the name, which is either the name itself or
   * that prefix followed by ".py".
   */
  function WithoutPy(name: string): (r: string)
    ensures r <= name
    ensures r == name || name == r + ".py"
  {
    match LastIndexOf(name, '.')
    case Some(d) => if name[d..] == ".py" then name[..d] else name
    case None => name
  }

  predicate EndsWithPy(s: string)
  {
    |s| >= 3 && s[|s| - 3..] == ".py"
  }

  /** The module name is the file name with a trailing ".py" removed, and the file name unchanged otherwise. */
  lemma ModuleNameStripsOnlyPy(path: string)
    ensures var name := FileName(path);
      GetFileNameWithoutPy(Some(path)) == Some(if EndsWithPy(name) then name[..|name| - 3] else name)
  {
    StripsOnlyPy(FileName(path));
  }

  lemma StripsOnlyPy(name: string)
    ensures WithoutPy(name) == if EndsWithPy(name) then name[..|name| - 3] else name
  {
    var d := LastIndexOf(name, '.');
    if EndsWithPy(name) {
      assert name[|name| - 3] == '.';
      assert name[|name| - 2..] == "py";
      assert d == Some(|name| - 3);
    }
  }

  /** The folder never contains the file name's part: it is a proper prefix of the path, ending before the last '/'. */
  lemma FolderIsBeforeLastSlash(path: string)
    requires LastIndexOf(path, '/').Some? && LastIndexOf(path, '/').value > 0
    ensures var k := LastIndexOf(path, '/').value;
      GetFolder(Some(path)) == path[..k] && path[k] == '/' && FileName(path) == path[k + 1..]
  {
  }

  /** A ".py" path inside a folder is the folder, a '/', the module name and ".py". */
  lemma {:induction false} FolderAndNameRebuildPath(path: string)
    requires EndsWithPy(path) && LastIndexOf(path, '/').Some? && LastIndexOf(path, '/').value > 0
    ensures GetFolder(Some(path)) + "/" + GetFileNameWithoutPy(Some(path)).value + ".py" == path
  {
    var k := LastIndexOf(path, '/').value;
    FolderIsBeforeLastSlash(path);
    var name := path[k + 1..];
    assert k < |path| - 3 by {
      assert path[|path| - 3..] == ".py";
    }
    assert EndsWithPy(name) by {
      assert name[|name| - 3..] == path[|path| - 3..];
    }
    StripsOnlyPy(name);
    SplitAtSlash(path, k, name[..|name| - 3]);
  }

  lemma SplitAtSlash(path: string, k: nat, stem: string)
    requires k < |path| && path[k] == '/' && path[k + 1..] == stem + ".py"
    ensures path[..k] + "/" + stem + ".py" == path
  {
    assert path == path[..k] + [path[k]] + path[k + 1..];
  }

  /** A file at the root has folder "/"; NULL gives "./" and no name. */
  lemma RootAndNullExamples()
    ensures GetFolder(Some("/app.py")) == "/" && GetFileNameWithoutPy(Some("/app.py")) == Some("app")
    ensures GetFolder(None) == "./" && GetFileNameWithoutPy(None) == None
  {
    var p := "/app.py";
    assert p[1..] == "app.py" && '/' !in p[1..];
    assert LastIndexOf(p, '/') == Some(0);
    assert EndsWithPy("app.py") && "app.py"[..3] == "app";
    StripsOnlyPy("app.py");
  }

  /** A bare file name has folder "./". */
  lemma BareNameExample()
    ensures GetFolder(Some("app.py")) == "./" && GetFileNameWithoutPy(Some("app.py")) == Some("app")
  {
    assert '/' !in "app.py";
    assert EndsWithPy("app.py") && "app.py"[..3] == "app";
    ModuleNameStripsOnlyPy("app.py");
  }

  /** Extensions other than exactly ".py" are kept. */
  lemma OtherExtensionsKept()
    ensures GetFileNameWithoutPy(Some("app.pyc")) == Some("app.pyc")
    ensures GetFileNameWithoutPy(Some("app.py.bak")) == Some("app.py.bak")
  {
    assert '/' !in "app.pyc" && '/' !in "app.py.bak";
    ModuleNameStripsOnlyPy("app.pyc");
    ModuleNameStripsOnlyPy("app.py.bak");
  }
}
