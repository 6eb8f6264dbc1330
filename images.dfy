/** Image addresses of tours: an address that already starts with "http" (a hosted image)
    is used as it is, any other is a path on the image server and gets its base prefixed. */
module Images {
  import opened Js

  /** `img.startsWith('http') ? img : `${IMAGE_BASE}${img}``. */
  function Resolve(img: string, base: string): (url: string)
    ensures StartsWith(img, "http") ==> url == img
    ensures !StartsWith(img, "http") ==> url == base + img
    ensures |img| <= |url| && url[|url| - |img|..] == img
  {
    if StartsWith(img, "http") then img else base + img
  }

  /** With a base that is itself an "http" address, a resolved address is absolute, and
      resolving it again changes nothing. */
  lemma ResolveAbsolute(img: string, base: string)
    requires StartsWith(base, "http")
    ensures StartsWith(Resolve(img, base), "http")
    ensures Resolve(Resolve(img, base), base) == Resolve(img, base)
  {
    if !StartsWith(img, "http") {
      assert (base + img)[..4] == base[..4];
    }
  }
}
