/**
 * The files the program reads and writes, by path. `open(p, 'r').readlines()`,
 * `open(p, 'w').writelines(ls)` and `open(p, 'a').write(t)` are the methods of
 * one `FileSystem` object, which every prompt file of a run shares.
 */
module Disk {
  import opened Outcomes
  import opened TextLines

  /** What a file holds, the empty text for a file that does not exist yet (mode 'a' creates it). */
  function Contents(files: map<string, string>, path: string): string {
    if path in files then files[path] else ""
  }

  /** The files after a module-level function of a driver script, and what it returned or raised. */
  datatype FileStep<T> = FileStep(files: map<string, string>, result: Result<T>)

  class FileSystem {
    var files: map<string, string>

    constructor (files: map<string, string>)
      ensures this.files == files
    {
      this.files := files;
    }

    /** `os.path.isfile(path)` */
    predicate Exists(path: string)
      reads this
    {
      path in files
    }

    /** `open(path, 'r').readlines()` */
    method ReadLines(path: string) returns (r: Result<seq<string>>)
      ensures r == if path in files then Ok(Lines(files[path])) else Raised(FileNotFound)
    {
      if path in files {
        r := Ok(Lines(files[path]));
      } else {
        r := Raised(FileNotFound);
      }
    }

    /** `open(path, 'w').writelines(ls)` */
    method WriteLines(path: string, ls: seq<string>)
      modifies this
      ensures files == old(files)[path := Join(ls)]
    {
      files := files[path := Join(ls)];
    }

    /** `open(path, 'w').write(text)` */
    method Write(path: string, text: string)
      modifies this
      ensures files == old(files)[path := text]
    {
      files := files[path := text];
    }

    /** `open(path, 'a').write(text)` */
    method Append(path: string, text: string)
      modifies this
      ensures files == old(files)[path := Contents(old(files), path) + text]
    {
      files := files[path := Contents(files, path) + text];
    }
  }
}
