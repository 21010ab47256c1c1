/**
 * The real filesystem underneath the agents, reduced to what they observe: a map from
 * workspace-relative paths to text contents, and the set of paths whose writes fail
 * (permissions, a full disk). Directories are implicit: writing a file creates its
 * parents, as every writer in the system does with `mkdir(parents=True)`.
 */
module Files {
  import opened Wrappers

  class FileSystem {
    var files: map<string, string>
    var readOnly: set<string>

    constructor (files0: map<string, string>, readOnly0: set<string>)
      ensures files == files0 && readOnly == readOnly0
    {
      files := files0;
      readOnly := readOnly0;
    }

    predicate Exists(path: string)
      reads this
    {
      path in files
    }

    /** `open(path).read()`, or nothing when the file is absent. */
    function Read(path: string): (r: Option<string>)
      reads this
      ensures r.Some? <==> path in files
      ensures r.Some? ==> r.value == files[path]
    {
      if path in files then Some(files[path]) else None
    }

    /** `open(path, 'w').write(content)`; `false` when the write raises. */
    method Write(path: string, content: string) returns (ok: bool)
      modifies this
      ensures ok <==> path !in old(readOnly)
      ensures files == if ok then old(files)[path := content] else old(files)
      ensures readOnly == old(readOnly)
    {
      ok := path !in readOnly;
      if ok {
        files := files[path := content];
      }
    }

    /** `path.unlink()`; removing an absent file changes nothing. */
    method Delete(path: string)
      modifies this
      ensures files == old(files) - {path}
      ensures readOnly == old(readOnly)
    {
      files := files - {path};
    }
  }
}
