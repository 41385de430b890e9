/**
 * The header mapping of an httpx response. Header names compare without regard
 * to ASCII case, so the map is keyed by the lower-cased name; looking a header up
 * or assigning it goes through the same normalisation.
 */
module Headers {
  import opened Wrappers

  function LowerChar(c: char): char
  {
    if 'A' <= c <= 'Z' then (c as int - 'A' as int + 'a' as int) as char else c
  }

  /** ASCII lower-casing: the result holds no upper-case ASCII letter. */
  function Lower(s: string): (r: string)
    ensures |r| == |s|
    ensures forall i :: 0 <= i < |r| ==> !('A' <= r[i] <= 'Z')
  {
    seq(|s|, i requires 0 <= i < |s| => LowerChar(s[i]))
  }

  /** Header values keyed by lower-cased header name: no two keys differ only in case. */
  type HeaderMap = h: map<string, string> | forall k :: k in h ==> Lower(k) == k
    witness map[]

  /** `headers.get(name)` */
  function Get(h: HeaderMap, name: string): Option<string>
  {
    var key := Lower(name);
    if key in h then Some(h[key]) else None
  }

  /** `headers[name] = value`: replaces every entry whose name matches `name`, keeps the others. */
  function Set(h: HeaderMap, name: string, value: string): (h': HeaderMap)
    ensures Get(h', name) == Some(value)
    ensures forall other :: Lower(other) != Lower(name) ==> Get(h', other) == Get(h, other)
    ensures h'.Keys == h.Keys + {Lower(name)}
    ensures forall k :: k in h && k != Lower(name) ==> k in h' && h'[k] == h[k]
  {
    var key := Lower(name);
    assert Lower(key) == key;
    h[key := value]
  }
}
