/**
 * Display helpers that several pages define identically: the avatar initials, with or
 * without the two-letter cap, and the URL of an uploaded image.
 */
module Display {
  import opened Wrappers
  import opened Seqs
  import opened Text

  /** No ASCII lower-case letter occurs in `s`. */
  predicate NoLowerCase(s: string) {
    forall i :: 0 <= i < |s| ==> !IsLowerAscii(s[i])
  }

  /**
   * `getInitials(name)`: "U" for a missing or empty name, otherwise the upper-cased first
   * letter of every word.
   */
  function FullInitials(name: string): (r: string)
    ensures name == "" ==> r == "U"
    ensures name != "" ==> |r| <= |name| && NoLowerCase(r)
  {
    if name == "" then "U" else ToUpper(Initials(name))
  }

  /** `getUserInitials(name)`: as `FullInitials`, cut to the first two letters. */
  function ShortInitials(name: string): (r: string)
    ensures |r| <= 2
    ensures name == "" ==> r == "U"
    ensures name != "" ==> r == SliceTo(FullInitials(name), 2)
  {
    if name == "" then "U" else SliceTo(ToUpper(Initials(name)), 2)
  }

  /** A two-word name gives the upper-cased first letter of each word, with or without the cap. */
  lemma InitialsOfTwoWords(first: string, last: string)
    requires first != [] && NoSpace(first) && last != [] && NoSpace(last)
    ensures FullInitials(first + " " + last) == [UpperChar(first[0]), UpperChar(last[0])]
    ensures ShortInitials(first + " " + last) == FullInitials(first + " " + last)
  {
    InitialsOfWords(first, last);
    InitialsOfWord(last);
  }

  /** With three or more words only the capped form drops letters. */
  lemma ShortInitialsDropThird(a: string, b: string, c: string)
    requires a != [] && NoSpace(a) && b != [] && NoSpace(b) && c != [] && NoSpace(c)
    ensures |FullInitials(a + " " + b + " " + c)| == 3
    ensures ShortInitials(a + " " + b + " " + c) == [UpperChar(a[0]), UpperChar(b[0])]
  {
    assert a + " " + b + " " + c == a + " " + (b + " " + c);
    InitialsOfWords(a, b + " " + c);
    InitialsOfWords(b, c);
    InitialsOfWord(c);
  }

  /** The server the order and customer lists load images from. */
  const ImageHost := "http://127.0.0.1:5000"

  /** The host the customer details page loads images from. */
  const DetailImageHost := "http://localhost:3000"

  /**
   * `getImageUrl(imagePath, type)`: nothing for a missing or empty path, the path itself
   * when it already starts with "http", otherwise `<host>/img/<type>/<path>`.
   */
  function ImageUrl(host: string, imagePath: Option<string>, kind: string): (r: Option<string>)
    ensures r.None? <==> imagePath.None? || imagePath.value == ""
    ensures r.Some? && StartsWith(imagePath.value, "http") ==> r.value == imagePath.value
    ensures r.Some? && !StartsWith(imagePath.value, "http") ==>
      r.value == host + "/img/" + kind + "/" + imagePath.value
  {
    if imagePath.None? || imagePath.value == "" then None
    else if StartsWith(imagePath.value, "http") then imagePath
    else Some(host + "/img/" + kind + "/" + imagePath.value)
  }

  /** A URL built from one of the hosts is left alone when passed through again. */
  lemma ImageUrlIdempotent(host: string, imagePath: Option<string>, kind: string)
    requires StartsWith(host, "http")
    ensures ImageUrl(host, imagePath, kind).Some? ==>
      ImageUrl(host, ImageUrl(host, imagePath, kind), kind) == ImageUrl(host, imagePath, kind)
  {
    var r := ImageUrl(host, imagePath, kind);
    if r.Some? && !StartsWith(imagePath.value, "http") {
      assert r.value[..4] == host[..4];
    }
  }
}
