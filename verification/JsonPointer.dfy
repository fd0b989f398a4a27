/** Escaping a label key for a JSON patch path (RFC 6901, sections 3 and 4). */
module JsonPointer {
  import opened Strings

  /** `strings.NewReplacer("~", "~0", "/", "~1")`: one pass, left to right. */
  function Encode(key: string): string {
    if key == [] then []
    else (if key[0] == '~' then "~0" else if key[0] == '/' then "~1" else [key[0]]) + Encode(key[1..])
  }

  /** Replaces every `~` followed by `digit` with `plain`, one pass, left to right. */
  function Unescape(s: string, digit: char, plain: char): string {
    if |s| >= 2 && s[0] == '~' && s[1] == digit then [plain] + Unescape(s[2..], digit, plain)
    else if s == [] then []
    else [s[0]] + Unescape(s[1..], digit, plain)
  }

  /** The decoder of section 4: `~1` first, `~0` second, so that `~01` becomes `~1` and not `/`. */
  function Decode(token: string): string {
    Unescape(Unescape(token, '1', '/'), '0', '~')
  }

  /** The path that `createJSONPatchForLabel` prints for a label key. */
  function LabelPath(key: string): string {
    "/metadata/labels/" + Encode(key)
  }

  /** Section 3 and 4: a pointer is the list of its decoded tokens, each introduced by a slash. */
  function Tokens(path: string): seq<string> {
    var parts := Split(path, '/');
    seq(|parts| - 1, i requires 0 <= i < |parts| - 1 => Decode(parts[i + 1]))
  }

  lemma {:induction false} EncodeHasNoSlash(key: string)
    ensures '/' !in Encode(key)
  {
    if key != [] {
      EncodeHasNoSlash(key[1..]);
    }
  }

  // What the first decoding pass leaves: slashes are back, tildes are still `~0`.
  function TildesOnly(key: string): string {
    if key == [] then []
    else (if key[0] == '~' then "~0" else [key[0]]) + TildesOnly(key[1..])
  }

  lemma {:induction false} FirstPass(key: string)
    ensures Unescape(Encode(key), '1', '/') == TildesOnly(key)
  {
    if key != [] {
      FirstPass(key[1..]);
      var e := Encode(key);
      if key[0] == '~' {
        assert e[1..] == "0" + Encode(key[1..]);
        assert e[1..][1..] == Encode(key[1..]);
      } else if key[0] == '/' {
        assert e[2..] == Encode(key[1..]);
      } else {
        assert e[1..] == Encode(key[1..]);
      }
    }
  }

  lemma {:induction false} SecondPass(key: string)
    ensures Unescape(TildesOnly(key), '0', '~') == key
  {
    if key != [] {
      SecondPass(key[1..]);
      var e := TildesOnly(key);
      if key[0] == '~' {
        assert e[2..] == TildesOnly(key[1..]);
      } else {
        assert e[1..] == TildesOnly(key[1..]);
      }
      assert key == [key[0]] + key[1..];
    }
  }

  lemma {:induction false} DecodeEncode(key: string)
    ensures Decode(Encode(key)) == key
  {
    FirstPass(key);
    SecondPass(key);
  }

  lemma {:induction false} UnescapePlain(s: string, digit: char, plain: char)
    requires '~' !in s
    ensures Unescape(s, digit, plain) == s
  {
    if s != [] {
      UnescapePlain(s[1..], digit, plain);
      assert s == [s[0]] + s[1..];
    }
  }

  lemma DecodePlain(s: string)
    requires '~' !in s
    ensures Decode(s) == s
  {
    UnescapePlain(s, '1', '/');
    UnescapePlain(s, '0', '~');
  }

  lemma {:induction false} SplitPath(a: string, b: string, c: string)
    requires '/' !in a && '/' !in b && '/' !in c
    ensures Split("/" + a + "/" + b + "/" + c, '/') == ["", a, b, c]
  {
    var tail := b + "/" + c;
    var body := a + "/" + tail;
    assert "/" + a + "/" + b + "/" + c == "" + "/" + body;
    SplitPrefix("", body, '/');
    SplitPrefix(a, tail, '/');
    SplitPrefix(b, c, '/');
    SplitPrefix(c, "", '/');
  }

  lemma {:induction false} TokensOfPath(a: string, b: string, key: string)
    requires '/' !in a && '/' !in b && '~' !in a && '~' !in b
    ensures Tokens("/" + a + "/" + b + "/" + Encode(key)) == [a, b, key]
  {
    EncodeHasNoSlash(key);
    SplitPath(a, b, Encode(key));
    DecodePlain(a);
    DecodePlain(b);
    DecodeEncode(key);
  }

  /** The patch path names exactly the label: its tokens are `metadata`, `labels` and the key. */
  lemma LabelPathTokens(key: string)
    ensures Tokens(LabelPath(key)) == ["metadata", "labels", key]
  {
    var a, b := "metadata", "labels";
    TokensOfPath(a, b, key);
    assert "/" + a + "/" + b + "/" == "/metadata/labels/";
    assert LabelPath(key) == "/" + a + "/" + b + "/" + Encode(key);
  }
}
