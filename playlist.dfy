/** The playlist handlers (internal/handlers/playlist.go): turning the requested paths into the
    playlist's local files, building the playlist, and the lookup of a media entry's episodes.

    The database, the request body parser and the route parameters are not modelled as
    services: what they return is a parameter of each handler. `GetNormalizedPath` is not part
    of this model, so each local file carries the normalised path it reports; the operating
    system's path separator is a parameter; lower-casing is ASCII lower-casing. */
module PlaylistHandlers {
  import opened Host

  /** A local file from the database; `normalizedPath` is what `GetNormalizedPath` returns. */
  datatype LocalFile = LocalFile(path: string, normalizedPath: string, mediaId: int, episode: int)

  /** The local files of one media entry, as the local file wrapper groups them. */
  datatype LocalEntry = LocalEntry(mediaId: int, files: seq<LocalFile>)

  // ---------------------------------------------------------------------------------------
  // Request paths
  // ---------------------------------------------------------------------------------------

  /** `filepath.ToSlash` on a system whose separator is `sep`. */
  function ToSlash(path: string, sep: char): (r: string)
    ensures |r| == |path|
    ensures forall i :: 0 <= i < |path| ==> r[i] == (if path[i] == sep then '/' else path[i])
  {
    seq(|path|, i requires 0 <= i < |path| => if path[i] == sep then '/' else path[i])
  }

  predicate IsUpper(c: char) {
    'A' <= c <= 'Z'
  }

  function LowerChar(c: char): char {
    if IsUpper(c) then (c as int - 'A' as int + 'a' as int) as char else c
  }

  /** `strings.ToLower`, restricted to ASCII letters. */
  function ToLower(s: string): (r: string)
    ensures |r| == |s|
    ensures forall i :: 0 <= i < |s| ==> !IsUpper(r[i])
    ensures forall i :: 0 <= i < |s| ==> (IsUpper(s[i]) || r[i] == s[i])
    ensures forall i :: 0 <= i < |s| && IsUpper(s[i]) ==> r[i] as int == s[i] as int + 32
  {
    seq(|s|, i requires 0 <= i < |s| => LowerChar(s[i]))
  }

  predicate IsLetter(c: char) {
    IsUpper(c) || ('a' <= c <= 'z')
  }

  /** What a requested path is compared against: lower-cased with forward slashes. No capital
      is left, no separator is left (unless the separator is a letter, which lower-casing can
      bring back), and every other character stays where it was. */
  function RequestKey(path: string, sep: char): (key: string)
    ensures |key| == |path|
    ensures forall i :: 0 <= i < |key| ==> !IsUpper(key[i])
    ensures !IsLetter(sep) ==> forall i :: 0 <= i < |key| && sep != '/' ==> key[i] != sep
    ensures forall i :: 0 <= i < |path| && path[i] == sep ==> key[i] == '/'
    ensures forall i :: 0 <= i < |path| && path[i] != sep && !IsUpper(path[i]) ==> key[i] == path[i]
    ensures forall i :: 0 <= i < |path| && path[i] != sep && IsUpper(path[i]) ==> key[i] as int == path[i] as int + 32
  {
    ToLower(ToSlash(path, sep))
  }

  /** A key is its own key: normalising twice changes nothing. */
  lemma RequestKeyIdempotent(path: string, sep: char)
    requires sep == '/' || sep == '\\'
    ensures RequestKey(RequestKey(path, sep), sep) == RequestKey(path, sep)
  {
    var t := ToSlash(path, sep);
    var k := ToLower(t);
    var kk := RequestKey(k, sep);
    forall i | 0 <= i < |k| ensures kk[i] == k[i] {
      assert k[i] == sep ==> sep == '/' by {
        assert k[i] == LowerChar(t[i]);
      }
    }
  }

  // ---------------------------------------------------------------------------------------
  // The filter
  // ---------------------------------------------------------------------------------------

  /** The first local file, in database order, whose normalised path is `key`. */
  function FirstMatch(key: string, dbLfs: seq<LocalFile>): (r: Option<LocalFile>)
    ensures r.None? <==> forall k :: 0 <= k < |dbLfs| ==> dbLfs[k].normalizedPath != key
    ensures r.Some? ==> exists i :: 0 <= i < |dbLfs| && dbLfs[i] == r.value && dbLfs[i].normalizedPath == key &&
                                    forall k :: 0 <= k < i ==> dbLfs[k].normalizedPath != key
    decreases |dbLfs|
  {
    if dbLfs == [] then None
    else if dbLfs[0].normalizedPath == key then Some(dbLfs[0])
    else
      var r := FirstMatch(key, dbLfs[1..]);
      assert forall k :: 1 <= k < |dbLfs| ==> dbLfs[k] == dbLfs[1..][k - 1];
      r
  }

  /** What one requested path contributes: nothing when no file matches its key, and otherwise
      one file, a database file with that key. */
  function Pick(path: string, dbLfs: seq<LocalFile>, sep: char): (picked: seq<LocalFile>)
    ensures |picked| <= 1
    ensures picked == [] <==> forall k :: 0 <= k < |dbLfs| ==> dbLfs[k].normalizedPath != RequestKey(path, sep)
    ensures forall lf :: lf in picked ==> lf in dbLfs && lf.normalizedPath == RequestKey(path, sep)
  {
    match FirstMatch(RequestKey(path, sep), dbLfs)
    case Some(lf) => [lf]
    case None => []
  }

  /** The local files a playlist gets for `paths`, one pick per path in request order; unmatched
      paths contribute nothing, so there are at most as many files as paths. */
  function Selected(paths: seq<string>, dbLfs: seq<LocalFile>, sep: char): (lfs: seq<LocalFile>)
    ensures |lfs| <= |paths|
    decreases |paths|
  {
    if paths == [] then []
    else Selected(paths[..|paths| - 1], dbLfs, sep) + Pick(paths[|paths| - 1], dbLfs, sep)
  }

  /** The filter loop of the create and update handlers. */
  method FilterLocalFiles(paths: seq<string>, dbLfs: seq<LocalFile>, sep: char)
    returns (lfs: seq<LocalFile>)
    ensures lfs == Selected(paths, dbLfs, sep)
  {
    lfs := [];
    for i := 0 to |paths|
      invariant lfs == Selected(paths[..i], dbLfs, sep)
    {
      var key := RequestKey(paths[i], sep);
      var j := 0;
      while j < |dbLfs|
        invariant 0 <= j <= |dbLfs|
        invariant FirstMatch(key, dbLfs) == FirstMatch(key, dbLfs[j..])
      {
        if dbLfs[j].normalizedPath == key {
          lfs := lfs + [dbLfs[j]];
          break;
        }
        assert dbLfs[j..][1..] == dbLfs[j + 1..];
        j := j + 1;
      }
      assert paths[..i + 1][..i] == paths[..i];
      assert lfs == Selected(paths[..i + 1], dbLfs, sep);
    }
    assert paths[..|paths|] == paths;
  }

  /** The playlist lists the picks of earlier paths before those of later ones. */
  lemma {:induction false} SelectedFollowsRequestOrder(p1: seq<string>, p2: seq<string>, dbLfs: seq<LocalFile>, sep: char)
    ensures Selected(p1 + p2, dbLfs, sep) == Selected(p1, dbLfs, sep) + Selected(p2, dbLfs, sep)
    decreases |p2|
  {
    if p2 != [] {
      var last := p2[|p2| - 1];
      assert (p1 + p2)[..|p1 + p2| - 1] == p1 + p2[..|p2| - 1];
      SelectedFollowsRequestOrder(p1, p2[..|p2| - 1], dbLfs, sep);
    } else {
      assert p1 + p2 == p1;
    }
  }

  /** One path contributes exactly its first match in database order, or nothing. */
  lemma SelectedOnePath(path: string, dbLfs: seq<LocalFile>, sep: char)
    ensures var key := RequestKey(path, sep);
            && ((forall k :: 0 <= k < |dbLfs| ==> dbLfs[k].normalizedPath != key) ==> Selected([path], dbLfs, sep) == [])
            && (forall i :: 0 <= i < |dbLfs| && dbLfs[i].normalizedPath == key &&
                            (forall k :: 0 <= k < i ==> dbLfs[k].normalizedPath != key) ==>
                  Selected([path], dbLfs, sep) == [dbLfs[i]])
  {
    assert [path][..0] == [];
    var key := RequestKey(path, sep);
    forall i | 0 <= i < |dbLfs| && dbLfs[i].normalizedPath == key &&
               (forall k :: 0 <= k < i ==> dbLfs[k].normalizedPath != key)
      ensures Selected([path], dbLfs, sep) == [dbLfs[i]]
    {
      var m := FirstMatch(key, dbLfs);
      var i' :| 0 <= i' < |dbLfs| && dbLfs[i'] == m.value && dbLfs[i'].normalizedPath == key &&
                forall k :: 0 <= k < i' ==> dbLfs[k].normalizedPath != key;
      assert i == i';
    }
  }

  /** Every file of the playlist is one of the database's files, matching one of the paths. */
  lemma {:induction false} SelectedComesFromDatabase(paths: seq<string>, dbLfs: seq<LocalFile>, sep: char)
    ensures forall lf :: lf in Selected(paths, dbLfs, sep) ==>
              lf in dbLfs && exists p :: p in paths && lf.normalizedPath == RequestKey(p, sep)
    decreases |paths|
  {
    if paths != [] {
      var init := paths[..|paths| - 1];
      SelectedComesFromDatabase(init, dbLfs, sep);
      forall lf | lf in Selected(paths, dbLfs, sep)
        ensures lf in dbLfs && exists p :: p in paths && lf.normalizedPath == RequestKey(p, sep)
      {
        if lf in Selected(init, dbLfs, sep) {
          var p :| p in init && lf.normalizedPath == RequestKey(p, sep);
          assert p in paths;
        } else {
          assert paths[|paths| - 1] in paths;
        }
      }
    }
  }

  /** A path requested twice puts its file into the playlist twice. */
  lemma RepeatedPathRepeatsFile(path: string, dbLfs: seq<LocalFile>, sep: char)
    ensures Selected([path, path], dbLfs, sep) == Selected([path], dbLfs, sep) + Selected([path], dbLfs, sep)
    ensures FirstMatch(RequestKey(path, sep), dbLfs).Some? ==>
              var lf := FirstMatch(RequestKey(path, sep), dbLfs).value;
              Selected([path, path], dbLfs, sep) == [lf, lf]
  {
    SelectedFollowsRequestOrder([path], [path], dbLfs, sep);
    assert [path] + [path] == [path, path];
    assert [path][..0] == [];
  }

  // ---------------------------------------------------------------------------------------
  // Playlists and handlers
  // ---------------------------------------------------------------------------------------

  /** entities.Playlist. `NewPlaylist` is not part of this model; it is taken to set the name
      and leave the other fields at their zero values. */
  class Playlist {
    var dbId: nat
    var name: string
    var localFiles: seq<LocalFile>

    constructor (name: string)
      ensures dbId == 0 && this.name == name && localFiles == []
    {
      dbId := 0;
      this.name := name;
      localFiles := [];
    }

    method SetLocalFiles(lfs: seq<LocalFile>)
      modifies this
      ensures localFiles == lfs && dbId == old(dbId) && name == old(name)
    {
      localFiles := lfs;
    }
  }

  /** `dbLfs` is what the database returns for the local files, `saved` what saving returns. */
  method HandleCreatePlaylist(name: string, paths: seq<string>, dbLfs: Result<seq<LocalFile>, Error>,
                              sep: char, saved: Option<Error>)
    returns (r: Result<Playlist, Error>)
    ensures dbLfs.Failure? ==> r == Failure(dbLfs.error)
    ensures dbLfs.Success? && saved.Some? ==> r == Failure(saved.value)
    ensures dbLfs.Success? && saved.None? ==>
              && r.Success? && fresh(r.value)
              && r.value.dbId == 0 && r.value.name == name
              && r.value.localFiles == Selected(paths, dbLfs.value, sep)
  {
    if dbLfs.Failure? {
      return Failure(dbLfs.error);
    }

    var lfs := FilterLocalFiles(paths, dbLfs.value, sep);

    var playlist := new Playlist(name);
    playlist.SetLocalFiles(lfs);

    if saved.Some? {
      return Failure(saved.value);
    }
    r := Success(playlist);
  }

  method HandleUpdatePlaylist(dbId: nat, name: string, paths: seq<string>,
                              dbLfs: Result<seq<LocalFile>, Error>, sep: char, updated: Option<Error>)
    returns (r: Result<Playlist, Error>)
    ensures dbLfs.Failure? ==> r == Failure(dbLfs.error)
    ensures dbLfs.Success? && updated.Some? ==> r == Failure(updated.value)
    ensures dbLfs.Success? && updated.None? ==>
              && r.Success? && fresh(r.value)
              && r.value.dbId == dbId && r.value.name == name
              && r.value.localFiles == Selected(paths, dbLfs.value, sep)
  {
    if dbLfs.Failure? {
      return Failure(dbLfs.error);
    }

    var lfs := FilterLocalFiles(paths, dbLfs.value, sep);

    var playlist := new Playlist(name);
    playlist.dbId := dbId;
    playlist.name := name;
    playlist.SetLocalFiles(lfs);

    if updated.Some? {
      return Failure(updated.value);
    }
    r := Success(playlist);
  }

  /** `idParam` and `progressParam` are the parsed route parameters; `lookup` is the wrapper's
      `GetLocalEntryById` and `unwatched` the entry's `GetUnwatchedLocalFiles`, neither of
      which is part of this model. */
  function PlaylistEpisodes(lfs: Result<seq<LocalFile>, Error>, idParam: Result<int, Error>,
                            progressParam: Result<int, Error>,
                            lookup: (seq<LocalFile>, int) -> Option<LocalEntry>,
                            unwatched: (LocalEntry, int) -> seq<LocalFile>): (r: Result<seq<LocalFile>, Error>)
    ensures lfs.Failure? ==> r == Failure(lfs.error)
    ensures lfs.Success? && idParam.Failure? ==> r == Failure(idParam.error)
    ensures lfs.Success? && idParam.Success? && progressParam.Failure? ==> r == Failure(progressParam.error)
    ensures lfs.Success? && idParam.Success? && progressParam.Success? && lookup(lfs.value, idParam.value).None? ==>
              r == Failure(Plain("media entry not found"))
    ensures lfs.Success? && idParam.Success? && progressParam.Success? && lookup(lfs.value, idParam.value).Some? ==>
              r == Success(unwatched(lookup(lfs.value, idParam.value).value, progressParam.value))
    ensures r.Success? <==>
              lfs.Success? && idParam.Success? && progressParam.Success? && lookup(lfs.value, idParam.value).Some?
  {
    if lfs.Failure? then Failure(lfs.error)
    else if idParam.Failure? then Failure(idParam.error)
    else if progressParam.Failure? then Failure(progressParam.error)
    else
      match lookup(lfs.value, idParam.value)
      case None => Failure(Plain("media entry not found"))
      case Some(group) => Success(unwatched(group, progressParam.value))
  }
}
