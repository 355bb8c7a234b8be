/**
 * Name clean-up: the file-name sanitiser (defined in the logger but never
 * called by it) and the normalisation of site names, whose spaces become
 * underscores once the site list has been fetched.
 */
module Names {
  import opened Strings
  import opened Records

  /** The characters `re.sub(r'[\/:*?"<>|]', '_', ...)` replaces. */
  const FilenameUnsafe: set<char> := {'/', ':', '*', '?', '"', '<', '>', '|'}

  /** `sanitize_filename`: every unsafe character becomes '_', all others stay. */
  function SanitizeFilename(filename: string): (r: string)
    ensures |r| == |filename|
    ensures forall i :: 0 <= i < |r| ==> r[i] !in FilenameUnsafe
    ensures forall i :: 0 <= i < |r| && filename[i] !in FilenameUnsafe ==> r[i] == filename[i]
    ensures forall i :: 0 <= i < |r| && filename[i] in FilenameUnsafe ==> r[i] == '_'
  {
    Substitute(filename, FilenameUnsafe, '_')
  }

  /** Sanitising an already sanitised name changes nothing. */
  lemma SanitizeIdempotent(filename: string)
    ensures SanitizeFilename(SanitizeFilename(filename)) == SanitizeFilename(filename)
  {
  }

  /** `name.replace(" ", "_")`. */
  function NormaliseSiteName(name: string): (r: string)
    ensures |r| == |name|
    ensures forall i :: 0 <= i < |r| ==> r[i] != ' '
    ensures forall i :: 0 <= i < |r| && name[i] != ' ' ==> r[i] == name[i]
    ensures forall i :: 0 <= i < |r| && name[i] == ' ' ==> r[i] == '_'
  {
    Substitute(name, {' '}, '_')
  }

  /** A name without spaces is left as it is. */
  lemma NormaliseKeepsSpaceFree(name: string)
    requires forall i :: 0 <= i < |name| ==> name[i] != ' '
    ensures NormaliseSiteName(name) == name
  {
  }

  /** The loop over the fetched sites that rewrites every site's name in place. */
  method NormaliseSiteNames(sites: array<Site>)
    modifies sites
    ensures forall i :: 0 <= i < sites.Length ==>
      sites[i] == old(sites[i]).(name := NormaliseSiteName(old(sites[i]).name))
  {
    for k := 0 to sites.Length
      invariant forall i :: 0 <= i < k ==>
        sites[i] == old(sites[i]).(name := NormaliseSiteName(old(sites[i]).name))
      invariant forall i :: k <= i < sites.Length ==> sites[i] == old(sites[i])
    {
      sites[k] := sites[k].(name := NormaliseSiteName(sites[k].name));
    }
  }
}
