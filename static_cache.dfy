/**
 * The static-file template tags of
 * salona_business_django/templatetags/static_cache.py. The static storage
 * and the filesystem are inputs: what `staticfiles_storage.url` returns or
 * that it raises, and what the local file lookup finds.
 */
module StaticCache {
  import opened Wrappers
  import opened Strings

  /** What the local-file lookup finds for a static path. */
  datatype LocalFile =
    | NoLocalPath            // `storage.path` raises AttributeError or NotImplementedError
    | Failure                // any other exception
    | Missing                // the path does not exist
    | Found(mtime: nat, size: nat, content: Option<string>)   // content `None`: reading it fails

  datatype Storage = Storage(url: Option<string>, file: LocalFile)   // url `None`: `storage.url` raises

  /** `static_versioned`. */
  function StaticVersioned(path: string, debug: bool, st: Storage): (r: string)
    ensures st.url.None? ==> r == path
    ensures st.url.Some? && !debug ==> r == st.url.value
    ensures st.url.Some? && debug && st.file.Found? ==>
      r == st.url.value + (if '?' in st.url.value then "&" else "?") + "v=" + NatToString(st.file.mtime)
    ensures st.url.Some? && debug && (st.file.NoLocalPath? || st.file.Missing?) ==> r == st.url.value
    ensures st.url.Some? && debug && st.file.Failure? ==> r == path
  {
    if st.url.None? then path
    else
      var url := st.url.value;
      if !debug then url
      else match st.file
        case Found(mtime, _, _) => url + (if '?' in url then "&" else "?") + "v=" + NatToString(mtime)
        case Failure => path
        case _ => url
  }

  /** The version parameter is appended with exactly one separator and can be read back. */
  lemma VersionReadsBack(path: string, st: Storage)
    requires st.url.Some? && st.file.Found?
    ensures var r := StaticVersioned(path, true, st);
      var tail := "v=" + NatToString(st.file.mtime);
      EndsWith(r, tail) && |r| == |st.url.value| + 1 + |tail| && StartsWith(r, st.url.value) &&
      ParseIntJs(r[|r| - |tail| + 2..]) == Some(st.file.mtime as int)
  {
    var url := st.url.value;
    var tail := "v=" + NatToString(st.file.mtime);
    var r := StaticVersioned(path, true, st);
    assert r == url + [if '?' in url then '&' else '?'] + tail;
    assert r[|r| - |tail|..] == tail;
    assert r[..|url|] == url;
    assert r[|r| - |tail| + 2..] == NatToString(st.file.mtime);
    ParseIntJsNat(st.file.mtime);
  }

  function LinkTag(url: string): string { "<link rel=\"stylesheet\" href=\"" + url + "\">" }

  const InlineLimit := 10240

  /** `inline_css`: a link in DEBUG, an inline style for a readable file under 10 KB, else a link. */
  function InlineCss(path: string, debug: bool, st: Storage): (r: string)
    ensures debug ==> r == LinkTag(StaticVersioned(path, true, st))
    ensures !debug && st.file.Found? && st.file.size < InlineLimit && st.file.content.Some? ==>
      r == "<style>" + st.file.content.value + "</style>"
    ensures !debug && !(st.file.Found? && st.file.size < InlineLimit && st.file.content.Some?) ==>
      r == LinkTag(StaticVersioned(path, false, st))
  {
    if debug then LinkTag(StaticVersioned(path, debug, st))
    else if st.file.Found? && st.file.size < InlineLimit && st.file.content.Some? then
      "<style>" + st.file.content.value + "</style>"
    else LinkTag(StaticVersioned(path, debug, st))
  }

  /** `cache_bust_hash`: the first 8 characters of the hex digest the hash function gives for the content. */
  function CacheBustHash(content: string, md5Hex: string -> string): (r: string)
    ensures StartsWith(md5Hex(content), r)
    ensures |md5Hex(content)| >= 8 ==> |r| == 8
    ensures |md5Hex(content)| < 8 ==> r == md5Hex(content)
  {
    var d := md5Hex(content);
    if |d| <= 8 then d else d[..8]
  }
}
