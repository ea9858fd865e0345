/** The blog schema: the shape of one stored post, the validation that
    saving a post runs, and the URL pattern the `image` field must match. */
module BlogModel {
  import opened Wrappers

  /** Milliseconds since the epoch, as `Date.now` gives them. */
  type Time = int

  /** One blog post as the schema stores it. `title` and `content` are the
      required `blog_title` and `blog_content` strings, `date` the creation
      time and `image` an optional URL (null when absent). */
  datatype Blog = Blog(title: string, content: string, date: Time, image: Option<string>)

  const HttpScheme: string := "http://"
  const HttpsScheme: string := "https://"

  /** A character of the class `[^ "]`: anything but a space or a double
      quote (newlines and tabs included). */
  predicate UrlChar(c: char) {
    c != ' ' && c != '"'
  }

  /** The regular expression's tail `[^ "]+$`: one or more characters of
      the class, up to the end of the input. */
  predicate UrlTail(t: string)
    decreases |t|
  {
    |t| > 0 && UrlChar(t[0]) && (|t| == 1 || UrlTail(t[1..]))
  }

  /** The `image` validator `^(http|https)://[^ "]+$`: the alternation tries
      `http` first and `https` second, each followed by `://`. */
  predicate ValidUrl(s: string) {
    || (HttpScheme <= s && UrlTail(s[|HttpScheme|..]))
    || (HttpsScheme <= s && UrlTail(s[|HttpsScheme|..]))
  }

  /** No character of `r` is a space or a double quote. */
  ghost predicate NoSpaceOrQuote(r: string) {
    forall i :: 0 <= i < |r| ==> UrlChar(r[i])
  }

  /** The accepted strings described directly: a scheme, `://`, and a
      non-empty rest free of spaces and double quotes. */
  ghost predicate UrlShape(s: string) {
    exists r :: r != [] && NoSpaceOrQuote(r) && (s == HttpScheme + r || s == HttpsScheme + r)
  }

  /** Mongoose's check at save time: a required String must be a non-empty
      string, and the custom validator is applied to a non-null `image`. */
  predicate Conforms(b: Blog) {
    && b.title != ""
    && b.content != ""
    && (b.image.Some? ==> ValidUrl(b.image.value))
  }

  /** A document built from the supplied fields; a missing `date` takes the
      schema default, the time of construction. */
  function NewBlog(title: string, content: string, date: Option<Time>, image: Option<string>, now: Time): (b: Blog)
    ensures b.title == title && b.content == content && b.image == image
    ensures date.None? ==> b.date == now
    ensures date.Some? ==> b.date == date.value
  {
    Blog(title, content, date.GetOr(now), image)
  }

  lemma {:induction false} UrlTailIff(t: string)
    ensures UrlTail(t) <==> t != [] && NoSpaceOrQuote(t)
    decreases |t|
  {
    if |t| > 1 {
      UrlTailIff(t[1..]);
      assert NoSpaceOrQuote(t) <==> UrlChar(t[0]) && NoSpaceOrQuote(t[1..]) by {
        forall i | 1 <= i < |t| ensures t[i] == t[1..][i - 1] { }
      }
    }
  }

  /** The matcher accepts exactly the strings of the described shape. */
  lemma ValidUrlIff(s: string)
    ensures ValidUrl(s) <==> UrlShape(s)
  {
    if HttpScheme <= s {
      var r := s[|HttpScheme|..];
      UrlTailIff(r);
      assert s == HttpScheme + r;
    }
    if HttpsScheme <= s {
      var r := s[|HttpsScheme|..];
      UrlTailIff(r);
      assert s == HttpsScheme + r;
    }
    if UrlShape(s) {
      var r :| r != [] && NoSpaceOrQuote(r) && (s == HttpScheme + r || s == HttpsScheme + r);
      UrlTailIff(r);
      if s == HttpScheme + r {
        assert HttpScheme <= s && s[|HttpScheme|..] == r;
      } else {
        assert HttpsScheme <= s && s[|HttpsScheme|..] == r;
      }
    }
  }

  /** A scheme with nothing after `://` is rejected. */
  lemma BareSchemeRejected()
    ensures !ValidUrl(HttpScheme) && !ValidUrl(HttpsScheme)
  {
    assert HttpScheme[|HttpScheme|..] == [];
    assert !(HttpsScheme <= HttpScheme);
    assert HttpsScheme[|HttpsScheme|..] == [];
    assert !(HttpScheme <= HttpsScheme) by { assert HttpsScheme[4] != HttpScheme[4]; }
  }

  /** A string that starts with neither scheme is rejected. */
  lemma OtherSchemeRejected(s: string)
    requires !(HttpScheme <= s) && !(HttpsScheme <= s)
    ensures !ValidUrl(s)
  {
  }

  /** The match is case-sensitive and anchored at the start. */
  lemma RejectedExamples()
    ensures !ValidUrl("ftp://x") && !ValidUrl("HTTP://x") && !ValidUrl("x")
  {
    assert "ftp://x"[0] != HttpScheme[0];
    assert "HTTP://x"[0] != HttpScheme[0];
    OtherSchemeRejected("ftp://x");
    OtherSchemeRejected("HTTP://x");
    OtherSchemeRejected("x");
  }

  /** A newline is in the class `[^ "]`, and `$` without the `m` flag is the
      end of the input, so a URL spanning two lines is accepted. */
  lemma NewlineAccepted()
    ensures ValidUrl("http://a\nb")
  {
    var r := "a\nb";
    assert "http://a\nb" == HttpScheme + r;
    assert NoSpaceOrQuote(r);
    ValidUrlIff("http://a\nb");
  }

  /** Every character of an accepted string is in the class `[^ "]`. */
  lemma AcceptedHasNoForbidden(s: string)
    ensures ValidUrl(s) ==> NoSpaceOrQuote(s)
  {
    ValidUrlIff(s);
    if ValidUrl(s) {
      var r :| r != [] && NoSpaceOrQuote(r) && (s == HttpScheme + r || s == HttpsScheme + r);
      var n := if s == HttpScheme + r then |HttpScheme| else |HttpsScheme|;
      forall i | 0 <= i < |s| ensures UrlChar(s[i]) {
        if i >= n { assert s[i] == r[i - n]; }
      }
    }
  }

  /** A space or a double quote anywhere in a string makes it rejected. */
  lemma ForbiddenCharRejected(s: string, k: nat)
    requires k < |s| && !UrlChar(s[k])
    ensures !ValidUrl(s)
  {
    AcceptedHasNoForbidden(s);
  }

  /** Appending allowed characters to an accepted URL keeps it accepted. */
  lemma AppendUrlChars(s: string, t: string)
    requires ValidUrl(s) && t != [] && NoSpaceOrQuote(t)
    ensures ValidUrl(s + t)
  {
    ValidUrlIff(s);
    var r :| r != [] && NoSpaceOrQuote(r) && (s == HttpScheme + r || s == HttpsScheme + r);
    var r' := r + t;
    assert NoSpaceOrQuote(r') by {
      forall i | 0 <= i < |r'| ensures UrlChar(r'[i]) {
        if i >= |r| { assert r'[i] == t[i - |r|]; }
      }
    }
    if s == HttpScheme + r {
      assert s + t == HttpScheme + r';
    } else {
      assert s + t == HttpsScheme + r';
    }
    ValidUrlIff(s + t);
  }

  /** Appending a string holding a space or a double quote to any string,
      accepted or not, gives a rejected one. */
  lemma AppendForbiddenRejected(s: string, t: string, k: nat)
    requires k < |t| && !UrlChar(t[k])
    ensures !ValidUrl(s + t)
  {
    assert (s + t)[|s| + k] == t[k];
    ForbiddenCharRejected(s + t, |s| + k);
  }
}
