/**
 * The part of path-to-regexp's `parse` (the 2.x/3.x token format, whose keys carry `optional` and
 * `repeat`) that the schema code reads. A path is scanned left to right; at each position the first
 * of these that applies is taken:
 *   - `\x`                      an escaped character, kept literally;
 *   - `:name` `(group)`? mod?   a named key (`name` is one or more word characters);
 *   - `(group)` mod?            an unnamed key, named by a counter starting at 0;
 *   - any other character      literal text.
 * A group is `(` then one or more characters other than `\`, `(`, `)` or escaped pairs, then `)`;
 * `mod` is one of `?` (optional), `+` (repeat) or `*` (both). Adjacent literal characters form one
 * literal token.
 */
module PathPattern {
  import opened Wrappers
  import opened Strings

  /** A key's name: a string for `:name`, the counter's value for an unnamed group. */
  datatype KeyName = Named(name: string) | Index(index: nat)

  datatype Token = Literal(text: string) | Key(name: KeyName, optional: bool, repeat: bool)

  /** The regular expression class `\w`. */
  predicate IsWordChar(c: char) {
    'a' <= c <= 'z' || 'A' <= c <= 'Z' || '0' <= c <= '9' || c == '_'
  }

  predicate IsModifier(c: char) {
    c == '?' || c == '+' || c == '*'
  }

  /** Length of the run of word characters that starts `s`. */
  function WordLength(s: string): (n: nat)
    ensures n <= |s|
    ensures forall i :: 0 <= i < n ==> IsWordChar(s[i])
    ensures n < |s| ==> !IsWordChar(s[n])
  {
    if s != [] && IsWordChar(s[0]) then 1 + WordLength(s[1..]) else 0
  }

  /** Scanning a group body from index `j`: the index of its closing `)`, if the body is well formed. */
  function GroupClose(s: string, j: nat): (r: Option<nat>)
    requires j <= |s|
    ensures r.Some? ==> j <= r.value < |s| && s[r.value] == ')'
    decreases |s| - j
  {
    if j == |s| then None
    else if s[j] == '\\' then (if j + 1 < |s| then GroupClose(s, j + 2) else None)
    else if s[j] == '(' then None
    else if s[j] == ')' then Some(j)
    else GroupClose(s, j + 1)
  }

  /** Length of the group `( … )` that starts `s`, or 0 when `s` does not start with one. */
  function GroupLength(s: string): (n: nat)
    ensures n == 0 || (3 <= n <= |s| && s[0] == '(' && s[n - 1] == ')')
  {
    if s != [] && s[0] == '(' then
      match GroupClose(s, 1)
      case Some(k) => if k > 1 then k + 1 else 0
      case None => 0
    else 0
  }

  /** The modifier character that starts `s`, if any. */
  function Modifier(s: string): (m: string)
    ensures |m| <= 1 && m <= s
  {
    if s != [] && IsModifier(s[0]) then s[..1] else ""
  }

  /** Prepend a literal character, joining it to a literal that follows. */
  function PushChar(c: char, ts: seq<Token>): seq<Token> {
    if ts != [] && ts[0].Literal? then [Literal([c] + ts[0].text)] + ts[1..]
    else [Literal([c])] + ts
  }

  /** What one lexing step finds: one literal character, or one key. */
  datatype Item = Text(c: char) | Param(token: Token)

  /** One lexing step on a non-empty input: what it finds, how many characters it takes, the next counter. */
  datatype Lexed = Lexed(item: Item, size: nat, nextKey: nat)

  /** A key with the optional/repeat flags that modifier `m` sets. */
  function ModifiedKey(name: KeyName, m: string): Token {
    Key(name, m == "?" || m == "*", m == "+" || m == "*")
  }

  /** The first lexing step on `s`, the unnamed-key counter being at `key`. */
  function Lex(s: string, key: nat): (l: Lexed)
    requires s != []
    ensures 1 <= l.size <= |s|
  {
    if s[0] == '\\' && |s| >= 2 then Lexed(Text(s[1]), 2, key)
    else if s[0] == ':' && |s| >= 2 && IsWordChar(s[1]) then
      var n := WordLength(s[1..]);
      var g := GroupLength(s[1 + n..]);
      var m := Modifier(s[1 + n + g..]);
      Lexed(Param(ModifiedKey(Named(s[1..1 + n]), m)), 1 + n + g + |m|, key)
    else if GroupLength(s) > 0 then
      var g := GroupLength(s);
      var m := Modifier(s[g..]);
      Lexed(Param(ModifiedKey(Index(key), m)), g + |m|, key + 1)
    else Lexed(Text(s[0]), 1, key)
  }

  /** `parse(s)` with the unnamed-key counter at `key`; adjacent literal characters join into one token. */
  function Parse(s: string, key: nat): seq<Token>
    decreases |s|
  {
    if s == [] then []
    else
      var l := Lex(s, key);
      var rest := Parse(s[l.size..], l.nextKey);
      match l.item
      case Text(c) => PushChar(c, rest)
      case Param(t) => [t] + rest
  }

  /** How many literal tokens `ts` holds. */
  function LiteralCount(ts: seq<Token>): nat {
    if ts == [] then 0 else (if ts[0].Literal? then 1 else 0) + LiteralCount(ts[1..])
  }

  /** The non-literal tokens, in order: the filter the schema code applies to `parse`'s result. */
  function Keys(ts: seq<Token>): (ks: seq<Token>)
    ensures forall i :: 0 <= i < |ks| ==> ks[i].Key?
  {
    if ts == [] then [] else (if ts[0].Key? then [ts[0]] else []) + Keys(ts[1..])
  }

  /** Every key token survives the filter and nothing else does, one entry per key token. */
  lemma {:induction false} KeysMeaning(ts: seq<Token>)
    ensures forall t :: t in Keys(ts) <==> t in ts && t.Key?
    ensures |Keys(ts)| + LiteralCount(ts) == |ts|
  {
    if ts != [] {
      KeysMeaning(ts[1..]);
      assert forall t :: t in ts <==> t == ts[0] || t in ts[1..];
    }
  }

  /** Filtering a concatenation filters each part, keeping their order. */
  lemma {:induction false} KeysAppend(a: seq<Token>, b: seq<Token>)
    ensures Keys(a + b) == Keys(a) + Keys(b)
    decreases |a|
  {
    if a == [] {
      assert a + b == b;
    } else {
      assert (a + b)[0] == a[0] && (a + b)[1..] == a[1..] + b;
      KeysAppend(a[1..], b);
    }
  }

  lemma KeysCons(t: Token, ts: seq<Token>)
    ensures Keys([t] + ts) == (if t.Key? then [t] else []) + Keys(ts)
  {
    assert ([t] + ts)[1..] == ts;
  }

  /** Literal characters never add or change keys. */
  lemma KeysPushChar(c: char, ts: seq<Token>)
    ensures Keys(PushChar(c, ts)) == Keys(ts)
  {
    if ts != [] && ts[0].Literal? {
      assert ts == [ts[0]] + ts[1..];
      KeysCons(ts[0], ts[1..]);
      KeysCons(Literal([c] + ts[0].text), ts[1..]);
    } else {
      KeysCons(Literal([c]), ts);
    }
  }

  /** The wildcard rewrite: every `*` becomes the unnamed, match-anything group `(.*)`. */
  function ReplaceStars(s: string): string {
    if s == [] then "" else (if s[0] == '*' then "(.*)" else [s[0]]) + ReplaceStars(s[1..])
  }

  /** The unnamed keys numbered `k`, `k + 1`, …, `k + n - 1`, plain (neither optional nor repeating). */
  function IndexKeys(k: nat, n: nat): seq<Token>
    decreases n
  {
    if n == 0 then [] else [Key(Index(k), false, false)] + IndexKeys(k + 1, n - 1)
  }

  /** Characters that, in this model, only ever stand for themselves or a wildcard. */
  predicate PlainChar(c: char) {
    c != ':' && c != '(' && c != ')' && c != '\\' && c != '?' && c != '+'
  }

  lemma KeysOfKey(t: Token)
    requires t.Key?
    ensures Keys([t]) == [t]
  {
    assert [t][1..] == [];
  }

  /** A plain character, or a `*` before the rewrite, is literal text. */
  lemma ParsePlain(c: char, rest: string, key: nat)
    requires PlainChar(c)
    ensures Parse([c] + rest, key) == PushChar(c, Parse(rest, key))
  {
    var s := [c] + rest;
    assert s[1..] == rest;
    assert GroupLength(s) == 0;
    assert Lex(s, key) == Lexed(Text(c), 1, key);
  }

  lemma ReplaceStarsHead(s: string)
    requires forall i :: 0 <= i < |s| ==> PlainChar(s[i])
    ensures ReplaceStars(s) == [] || !IsModifier(ReplaceStars(s)[0])
  {
  }

  /** The rewritten wildcard `(.*)`, not followed by a modifier, is one plain unnamed key. */
  lemma StarGroupParse(t: string, key: nat)
    requires t == [] || !IsModifier(t[0])
    ensures Parse("(.*)" + t, key) == [Key(Index(key), false, false)] + Parse(t, key + 1)
  {
    var u := "(.*)" + t;
    assert GroupClose(u, 3) == Some(3);
    assert GroupClose(u, 1) == Some(3);
    assert GroupLength(u) == 4;
    assert u[4..] == t;
    assert Modifier(t) == "";
    assert Lex(u, key) == Lexed(Param(Key(Index(key), false, false)), 4, key + 1);
  }

  /**
   * After `*` is rewritten to `(.*)`, a path whose other characters are plain yields exactly one
   * unnamed key per wildcard, numbered from the counter in left-to-right order.
   */
  lemma {:induction false} WildcardKeys(s: string, key: nat)
    requires forall i :: 0 <= i < |s| ==> PlainChar(s[i])
    ensures Keys(Parse(ReplaceStars(s), key)) == IndexKeys(key, Count(s, '*'))
    decreases |s|
  {
    if s != [] {
      var t := ReplaceStars(s[1..]);
      CountCons(s, '*');
      WildcardKeys(s[1..], if s[0] == '*' then key + 1 else key);
      ReplaceStarsHead(s[1..]);
      if s[0] == '*' {
        assert ReplaceStars(s) == "(.*)" + t;
        StarGroupParse(t, key);
        KeysCons(Key(Index(key), false, false), Parse(t, key + 1));
      } else {
        assert ReplaceStars(s) == [s[0]] + t;
        ParsePlain(s[0], t, key);
        KeysPushChar(s[0], Parse(t, key));
      }
    }
  }

  /** Without `*`, the wildcard rewrite changes nothing. */
  lemma {:induction false} NoStarsUnchanged(s: string)
    requires forall i :: 0 <= i < |s| ==> s[i] != '*'
    ensures ReplaceStars(s) == s
  {
    if s != [] {
      NoStarsUnchanged(s[1..]);
      assert s == [s[0]] + s[1..];
    }
  }

  /** Plain characters are literal text, so they add no keys in front of what follows. */
  lemma {:induction false} PlainPrefixKeys(prefix: string, rest: string, key: nat)
    requires forall i :: 0 <= i < |prefix| ==> PlainChar(prefix[i])
    ensures Keys(Parse(prefix + rest, key)) == Keys(Parse(rest, key))
  {
    if prefix != [] {
      assert prefix + rest == [prefix[0]] + (prefix[1..] + rest);
      ParsePlain(prefix[0], prefix[1..] + rest, key);
      KeysPushChar(prefix[0], Parse(prefix[1..] + rest, key));
      PlainPrefixKeys(prefix[1..], rest, key);
    } else {
      assert prefix + rest == rest;
    }
  }

  /** `:name` at the very end of a path is one plain named key. */
  lemma TrailingKey(name: string, key: nat)
    requires name != [] && forall i :: 0 <= i < |name| ==> IsWordChar(name[i])
    ensures Parse(":" + name, key) == [Key(Named(name), false, false)]
  {
    var s := ":" + name;
    assert s[1..] == name;
    WholeWord(name);
    assert s[1..1 + |name|] == name;
    assert s[1 + |name|..] == [];
    assert GroupLength([]) == 0 && Modifier([]) == [];
    assert Lex(s, key) == Lexed(Param(Key(Named(name), false, false)), 1 + |name|, key);
  }

  lemma {:induction false} WholeWord(s: string)
    requires forall i :: 0 <= i < |s| ==> IsWordChar(s[i])
    ensures WordLength(s) == |s|
  {
    if s != [] {
      WholeWord(s[1..]);
    }
  }

  /** `:name` followed by one modifier character at the end of a path is one key with that modifier. */
  lemma ModifiedKeyParse(name: string, m: char, key: nat)
    requires name != [] && forall i :: 0 <= i < |name| ==> IsWordChar(name[i])
    requires IsModifier(m)
    ensures Parse(":" + name + [m], key) == [ModifiedKey(Named(name), [m])]
  {
    var s := ":" + name + [m];
    assert s[1..] == name + [m];
    WordPrefix(name, [m]);
    assert s[1..1 + |name|] == name;
    assert s[1 + |name|..] == [m];
    assert GroupLength([m]) == 0 && Modifier([m]) == [m];
    assert Lex(s, key) == Lexed(Param(ModifiedKey(Named(name), [m])), 2 + |name|, key);
    assert s[2 + |name|..] == [];
  }

  /** A run of word characters ends where a non-word character starts. */
  lemma {:induction false} WordPrefix(w: string, rest: string)
    requires forall i :: 0 <= i < |w| ==> IsWordChar(w[i])
    requires rest != [] && !IsWordChar(rest[0])
    ensures WordLength(w + rest) == |w|
  {
    if w != [] {
      assert (w + rest)[1..] == w[1..] + rest;
      WordPrefix(w[1..], rest);
    } else {
      assert w + rest == rest;
    }
  }

  lemma IndexKeysAt(k: nat, n: nat, i: nat)
    requires i < n
    ensures |IndexKeys(k, n)| == n && IndexKeys(k, n)[i] == Key(Index(k + i), false, false)
    decreases n
  {
    if i > 0 {
      IndexKeysAt(k + 1, n - 1, i - 1);
    } else {
      IndexKeysLength(k + 1, n - 1);
    }
  }

  lemma IndexKeysLength(k: nat, n: nat)
    ensures |IndexKeys(k, n)| == n
    decreases n
  {
    if n > 0 {
      IndexKeysLength(k + 1, n - 1);
    }
  }
}
