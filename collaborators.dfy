/**
 * The two objects the editor is handed: a filesystem it reads and writes
 * whole files through, and the console command it reports progress to.
 * Both record every call made on them, so that a caller can state exactly
 * which reads, writes and messages an operation caused.
 */
module Collaborators {
  import opened Json

  /** A filesystem: file contents by path, plus the reads and writes made so far. */
  class FileSystem {
    var files: map<string, string>
    var gets: seq<string>
    var puts: seq<(string, string)>

    constructor (files: map<string, string>)
      ensures this.files == files && gets == [] && puts == []
    {
      this.files := files;
      gets := [];
      puts := [];
    }

    /** The whole contents of the file at `path`; `None` when there is no such file. */
    method Get(path: string) returns (text: Option<string>)
      modifies this`gets
      ensures gets == old(gets) + [path]
      ensures text == if path in files then Some(files[path]) else None
    {
      gets := gets + [path];
      text := if path in files then Some(files[path]) else None;
    }

    /** Replaces (or creates) the file at `path` with `text`. */
    method Put(path: string, text: string)
      modifies this`files, this`puts
      ensures files == old(files)[path := text]
      ensures puts == old(puts) + [(path, text)]
    {
      files := files[path := text];
      puts := puts + [(path, text)];
    }
  }

  /** The console command: receives `comment(category, message)` calls. */
  class Reporter {
    var comments: seq<(string, string)>

    constructor ()
      ensures comments == []
    {
      comments := [];
    }

    method Comment(category: string, message: string)
      modifies this
      ensures comments == old(comments) + [(category, message)]
    {
      comments := comments + [(category, message)];
    }
  }
}
