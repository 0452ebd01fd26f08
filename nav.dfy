/** The template tags of `cooking_nav`: highlighting the menu entry of the
    current section, and the link to a target's attachment page. */
module Nav {
  import opened Wrappers
  import opened Text

  /** `cc_nav_active(context, url_name)`. `path` is `request.path`, or
      nothing when the context holds no request; `reverse` is the URL
      resolver, nothing standing for `NoReverseMatch`. */
  function NavActive(path: Option<string>, urlName: string, reverse: string -> Option<string>): (r: string)
    ensures r == "active" || r == ""
    ensures r == "active" <==> path.Some? && reverse(urlName).Some? && IsPrefix(reverse(urlName).value, path.value)
  {
    if path.None? then ""
    else
      var url := reverse(urlName);
      if url.None? then ""
      else if path.value == url.value || IsPrefix(url.value, path.value) then "active"
      else ""
  }

  /** A page is active on its own URL and on every URL below it. */
  lemma NavActiveBelow(path: string, suffix: string, urlName: string, reverse: string -> Option<string>)
    requires reverse(urlName).Some? && path == reverse(urlName).value + suffix
    ensures NavActive(Some(path), urlName, reverse) == "active"
  {
    assert path[..|reverse(urlName).value|] == reverse(urlName).value;
  }

  /** Without a request, or for a name that does not resolve, nothing is
      highlighted. */
  lemma NavInactiveWithout(path: Option<string>, urlName: string, reverse: string -> Option<string>)
    requires path.None? || reverse(urlName).None?
    ensures NavActive(path, urlName, reverse) == ""
  {
  }

  /** An entry whose URL is the site root is highlighted on every page. */
  lemma RootAlwaysActive(path: string, urlName: string, reverse: string -> Option<string>)
    requires reverse(urlName) == Some("/") && |path| > 0 && path[0] == '/'
    ensures NavActive(Some(path), urlName, reverse) == "active"
  {
  }

  // ---------------------------------------------------------------------
  // cc_target_url
  // ---------------------------------------------------------------------

  /** The `<slug:...>` converter accepts ASCII letters, digits, `-` and `_`. */
  predicate IsSlugChar(c: char) {
    ('a' <= c <= 'z') || ('A' <= c <= 'Z') || ('0' <= c <= '9') || c == '-' || c == '_'
  }

  predicate IsSlug(s: string) {
    |s| > 0 && forall i :: 0 <= i < |s| ==> IsSlugChar(s[i])
  }

  /** `cc_target_url(model_key, obj_pk)`: the path of the `target-detail`
      route `target/<slug:model_key>/<int:pk>/` under `root` (where the app
      is mounted), or nothing when the key is not a slug. */
  function TargetURL(root: string, modelKey: string, pk: nat): (r: Option<string>)
    ensures r.Some? <==> IsSlug(modelKey)
    ensures r.Some? ==> IsPrefix(root + "target/", r.value)
  {
    if IsSlug(modelKey) then
      var url := root + "target/" + (modelKey + "/" + (DecimalString(pk) + "/"));
      assert url[..|root + "target/"|] == root + "target/";
      Some(url)
    else None
  }

  /** Different targets get different links. */
  lemma TargetURLInjective(root: string, k1: string, p1: nat, k2: string, p2: nat)
    requires TargetURL(root, k1, p1).Some? && TargetURL(root, k1, p1) == TargetURL(root, k2, p2)
    ensures k1 == k2 && p1 == p2
  {
    var head := root + "target/";
    var t1 := k1 + "/" + (DecimalString(p1) + "/");
    var t2 := k2 + "/" + (DecimalString(p2) + "/");
    assert head + t1 == head + t2;
    assert t1 == t2 by {
      assert t1 == (head + t1)[|head|..];
      assert t2 == (head + t2)[|head|..];
    }
    KeyPrefixUnique(k1, DecimalString(p1) + "/", k2, DecimalString(p2) + "/");
    assert DecimalString(p1) == (DecimalString(p1) + "/")[..|DecimalString(p1) + "/"| - 1];
    assert DecimalString(p2) == (DecimalString(p2) + "/")[..|DecimalString(p2) + "/"| - 1];
    DecimalStringInjective(p1, p2);
  }

  /** In `key + "/" + rest`, a slug key ends at the first `/`. */
  lemma KeyPrefixUnique(k1: string, r1: string, k2: string, r2: string)
    requires IsSlug(k1) && IsSlug(k2) && k1 + "/" + r1 == k2 + "/" + r2
    ensures k1 == k2 && r1 == r2
  {
    var s := k1 + "/" + r1;
    FirstSlash(k1, r1);
    FirstSlash(k2, r2);
    assert |k1| == |k2|;
    assert k1 == s[..|k1|] && k2 == s[..|k2|];
    assert r1 == s[|k1| + 1..] && r2 == s[|k2| + 1..];
  }

  /** A slug holds no `/`, so the first `/` of `key + "/" + rest` is the one
      after the key. */
  lemma FirstSlash(k: string, r: string)
    requires IsSlug(k)
    ensures (k + "/" + r)[|k|] == '/'
    ensures forall i :: 0 <= i < |k| ==> (k + "/" + r)[i] != '/'
  {
    forall i | 0 <= i < |k| ensures (k + "/" + r)[i] != '/' {
      assert (k + "/" + r)[i] == k[i] && IsSlugChar(k[i]);
    }
  }
}
