/**
 * The local file system as the core sees it: a map from path text to file content.
 * Directories, permissions and I/O failures are not part of this model.
 */
module Files {
  import opened Wrappers

  class FileStore {
    var files: map<string, string>

    constructor (initial: map<string, string>)
      ensures files == initial
    {
      files := initial;
    }

    /** `Path::exists`. */
    method Exists(path: string) returns (present: bool)
      ensures present <==> path in files
    {
      present := path in files;
    }

    /** `fs::read_to_string`. */
    method Read(path: string) returns (content: Option<string>)
      ensures path in files ==> content == Some(files[path])
      ensures path !in files ==> content == None
    {
      content := if path in files then Some(files[path]) else None;
    }

    /** `fs::write`: create or replace the file. */
    method Write(path: string, content: string)
      modifies this
      ensures files == old(files)[path := content]
    {
      files := files[path := content];
    }

    /** `fs::rename`: fails when the source does not exist. */
    method Rename(source: string, target: string) returns (ok: bool)
      modifies this
      ensures ok <==> source in old(files)
      ensures ok ==> files == (old(files) - {source})[target := old(files)[source]]
      ensures !ok ==> files == old(files)
    {
      ok := source in files;
      if ok {
        files := (files - {source})[target := files[source]];
      }
    }

    /** `fs::remove_file`: fails when the file does not exist. */
    method Remove(path: string) returns (ok: bool)
      modifies this
      ensures ok <==> path in old(files)
      ensures files == old(files) - {path}
    {
      ok := path in files;
      files := files - {path};
    }
  }
}
