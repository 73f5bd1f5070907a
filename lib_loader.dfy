/** The dynamic-library loader (class LibLoader): an owner of at most one loaded
    library. The operating system is replaced by an environment that says which paths
    load, what each loaded library exports, and what text the system reports for the
    last error. The loader is generic in what an exported symbol resolves to. */
module Loading {
  import opened Common

  /** A loaded module, reduced to its exported symbols. */
  datatype Library<P> = Library(exports: map<string, P>)

  /** The operating system as seen by the loader: the libraries each path loads (a
      path that is not a key fails to load), and the raw text the system message
      formatter leaves in its buffer for the last error. */
  datatype OsEnv<P> = OsEnv(libraries: map<string, Library<P>>, systemMessage: string)

  /** `GetProcAddress`: the symbol's value, or NULL when it is not exported. */
  function Resolve<P>(lib: Library<P>, name: string): (r: Option<P>)
    ensures r.Some? <==> name in lib.exports
    ensures r.Some? ==> r.value == lib.exports[name]
  {
    if name in lib.exports then Some(lib.exports[name]) else None
  }

  /** The newline trim of `GetLastSystemError`: `replace(pos, 1, "\0")` replaces the
      first newline by an empty C string, so it deletes that one character only. */
  function TrimFirstNewline(msg: string): (r: string)
    ensures '\n' !in msg ==> r == msg
    ensures '\n' in msg ==> |r| == |msg| - 1
    ensures '\n' in msg ==> multiset(r)['\n'] == multiset(msg)['\n'] - 1
    ensures '\n' in msg ==> forall c :: c != '\n' ==> multiset(r)[c] == multiset(msg)[c]
  {
    var pos := IndexOf(msg, '\n');
    if pos == |msg| then msg
    else
      assert msg == msg[..pos] + [msg[pos]] + msg[pos + 1..];
      msg[..pos] + msg[pos + 1..]
  }

  /** The trim keeps everything before the first newline and everything after it. */
  lemma TrimKeepsBothSides(text: string, rest: string)
    requires '\n' !in text
    ensures TrimFirstNewline(text + "\n" + rest) == text + rest
  {
    IndexOfAfterText(text, '\n', rest);
    var msg := text + "\n" + rest;
    assert msg[..|text|] == text && msg[|text| + 1..] == rest;
  }

  /** System messages end in "\r\n"; the trim leaves the carriage return in place. */
  lemma TrimLeavesCarriageReturn(text: string)
    requires '\n' !in text
    ensures TrimFirstNewline(text + "\r\n") == text + "\r"
  {
    assert text + "\r\n" == (text + "\r") + "\n" + "";
    TrimKeepsBothSides(text + "\r", "");
  }

  /** `GetLastSystemError`: the formatted system text up to its terminator, with the
      first newline trimmed. */
  function GetLastSystemError(formatted: string): (r: string)
    ensures Nul !in r
    ensures '\n' !in UntilNul(formatted) ==> r == UntilNul(formatted)
    ensures '\n' in UntilNul(formatted) ==> |r| == |UntilNul(formatted)| - 1
  {
    TrimFirstNewline(UntilNul(formatted))
  }

  const ReloadMessage := "Reload LibLoader."
  const EmptyLoaderMessage := "getProcAddress() call empty LibLoader."

  class LibLoader<P> {
    /** `mImpl` with its module handle: None while Unloaded. */
    var handle: Option<Library<P>>

    constructor ()
      ensures handle == None
    {
      handle := None;
    }

    /** `operator bool`. */
    predicate IsLoaded()
      reads this
    {
      handle.Some?
    }

    /** Loading twice is an error; otherwise the loader ends Loaded exactly when the
        path loads, holding that library. */
    method Load(env: OsEnv<P>, fileName: string) returns (r: Throws<bool>)
      modifies this
      ensures old(IsLoaded()) ==> r == Throw(ReloadMessage) && handle == old(handle)
      ensures !old(IsLoaded()) ==> r == Returns(fileName in env.libraries)
      ensures !old(IsLoaded()) ==> IsLoaded() == (fileName in env.libraries)
      ensures IsLoaded() && !old(IsLoaded()) ==> handle.value == env.libraries[fileName]
    {
      if handle.Some? {
        return Throw(ReloadMessage);
      }
      if fileName in env.libraries {
        handle := Some(env.libraries[fileName]);
        r := Returns(true);
      } else {
        // the Impl object is released without a handle
        handle := None;
        r := Returns(false);
      }
    }

    /** Closes the library when one is loaded; nothing to do otherwise. */
    method Free()
      modifies this
      ensures !IsLoaded()
      ensures !old(IsLoaded()) ==> handle == old(handle)
    {
      if handle.Some? {
        handle := None;
      }
    }

    /** Resolving on an Unloaded instance is an error; otherwise the symbol's value or
        NULL. */
    method GetProcAddress(name: string) returns (r: Throws<Option<P>>)
      ensures !IsLoaded() ==> r == Throw(EmptyLoaderMessage)
      ensures IsLoaded() ==> r == Returns(Resolve(handle.value, name))
    {
      if handle.None? {
        return Throw(EmptyLoaderMessage);
      }
      r := Returns(Resolve(handle.value, name));
    }

    /** Move assignment: frees what this instance holds, then takes the source's
        library, leaving the source Unloaded. Assigning an instance to itself changes
        nothing. */
    method MoveFrom(src: LibLoader<P>)
      modifies this, src
      ensures src == this ==> handle == old(handle)
      ensures src != this ==> handle == old(src.handle) && !src.IsLoaded()
    {
      if src != this {
        if handle.Some? {
          Free();
        }
        if src.handle.None? {
          return;
        }
        handle := src.handle;
        src.handle := None;
      }
    }
  }
}
