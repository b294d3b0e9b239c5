/** Reading an authorized_keys line (internal/sshkey/sshkey.go). */
module SshKey {
  import opened Wire

  /** White space as the standard library sees it. */
  predicate IsSpace(c: char) {
    || c in {' ', '\t', '\n', '\r', '\U{0B}', '\U{0C}', '\U{85}', '\U{A0}', '\U{1680}'}
    || '\U{2000}' <= c <= '\U{200A}'
    || c in {'\U{2028}', '\U{2029}', '\U{202F}', '\U{205F}', '\U{3000}'}
  }

  /** Not empty, and free of white space. */
  predicate IsWord(s: string) {
    s != "" && forall c | c in s :: !IsSpace(c)
  }

  /** The longest prefix free of white space. */
  function FirstWord(s: string): (w: string)
    ensures w <= s && (forall c | c in w :: !IsSpace(c))
    ensures |w| < |s| ==> IsSpace(s[|w|])
  {
    if s == "" || IsSpace(s[0]) then "" else [s[0]] + FirstWord(s[1..])
  }

  /** The words of a line. */
  function Fields(s: string): (fields: seq<string>)
    ensures forall f | f in fields :: IsWord(f)
    decreases |s|
  {
    if s == "" then []
    else if IsSpace(s[0]) then Fields(s[1..])
    else
      var w := FirstWord(s);
      [w] + Fields(s[|w|..])
  }

  /** Key type and blob of a line; `base64` tells whether a blob decodes. */
  function ParseAuthorizedKey(line: string, base64: string -> bool): (parsed: Option<(string, string)>)
    ensures parsed.Some? ==> IsWord(parsed.value.0) && IsWord(parsed.value.1) && base64(parsed.value.1)
  {
    var fields := Fields(line);
    if |fields| < 2 || !base64(fields[1]) then None else Some((fields[0], fields[1]))
  }

  /** The line the daemon prints parses back to the key, whatever comment is added. */
  lemma PrintedLineParses(keyType: string, blob: string, comment: string, base64: string -> bool)
    requires IsWord(keyType) && IsWord(blob) && base64(blob)
    requires comment == "" || comment[0] == ' '
    ensures ParseAuthorizedKey(keyType + " " + blob + comment, base64) == Some((keyType, blob))
  {
    var rest := " " + blob + comment;
    assert keyType + " " + blob + comment == keyType + rest;
    FieldsOfWord(keyType, rest);
    assert rest[0] == ' ' && rest[1..] == blob + comment;
    FieldsOfWord(blob, comment);
  }

  lemma FieldsOfWord(w: string, rest: string)
    requires IsWord(w) && (rest == "" || IsSpace(rest[0]))
    ensures Fields(w + rest) == [w] + Fields(rest)
  {
    FirstWordIs(w, rest);
    assert (w + rest)[0] == w[0] && w[0] in w;
    assert (w + rest)[|w|..] == rest;
  }

  lemma {:induction false} FirstWordIs(w: string, rest: string)
    requires (forall c | c in w :: !IsSpace(c)) && (rest == "" || IsSpace(rest[0]))
    ensures FirstWord(w + rest) == w
  {
    if w != "" {
      assert (w + rest)[1..] == w[1..] + rest;
      FirstWordIs(w[1..], rest);
    } else {
      assert w + rest == rest;
    }
  }
}
