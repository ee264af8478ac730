/**
 * The credential: the `config` command's write of `~/.weather.cfg`,
 * `get_api_key`'s read of its first line, and the precedence by which the
 * `current` and `forecast` commands choose the key they send.
 *
 * The file is an abstract value: `None` when it does not exist, otherwise
 * `Some(contents)`.
 */
module Config {
  import opened Wrappers

  /** What Python's text mode (universal newlines) takes as the end of a line. */
  predicate IsLineBreak(c: char) {
    c == '\n' || c == '\r'
  }

  predicate NoBreak(s: string) {
    forall i :: 0 <= i < |s| ==> !IsLineBreak(s[i])
  }

  /** A single line: no line break, except possibly one '\n' at the very end. */
  predicate OneLine(s: string) {
    NoBreak(s) || (|s| > 0 && s[|s| - 1] == '\n' && NoBreak(s[..|s| - 1]))
  }

  /**
   * `f.readline()` on a file opened in text mode: everything up to the first
   * line break, which is returned translated to a single '\n'; the whole
   * contents when there is no line break; "" for an empty file.
   */
  function FirstLine(s: string): (r: string)
    ensures NoBreak(s) ==> r == s
    ensures !NoBreak(s) ==>
      && 0 < |r| <= |s|
      && r[|r| - 1] == '\n'
      && IsLineBreak(s[|r| - 1])
      && r[..|r| - 1] == s[..|r| - 1]
      && NoBreak(s[..|r| - 1])
  {
    if s == [] then []
    else if IsLineBreak(s[0]) then "\n"
    else [s[0]] + FirstLine(s[1..])
  }

  /**
   * `cfg.write(api_key)` on a file opened with 'w': afterwards the file
   * exists and holds the key alone, whatever it held before.
   */
  function WriteConfig(previous: Option<string>, key: string): (file: Option<string>)
    ensures file.Some? && file.value == key
  {
    Some(key)
  }

  /**
   * `get_api_key()`: `None` is the FileNotFoundError the callers catch. The
   * source's `else: return None` cannot happen, since `readline` always
   * returns a string.
   */
  function GetApiKey(file: Option<string>): (key: Option<string>)
    ensures key.None? <==> file.None?
    ensures key.Some? ==> key.value == FirstLine(file.value) && OneLine(key.value)
  {
    match file
    case None => None
    case Some(contents) => Some(FirstLine(contents))
  }

  /**
   * Writing a key with `config` and reading it back with `get_api_key`
   * returns exactly that key if and only if the key holds no line break,
   * except possibly a single '\n' at its very end.
   */
  lemma ConfigRoundTrip(previous: Option<string>, key: string)
    ensures GetApiKey(WriteConfig(previous, key)) == Some(key) <==> OneLine(key)
  {
    if OneLine(key) {
      OneLineReadBack(key);
    }
  }

  /** A single line is its own first line: the final '\n', if any, is the break `readline` stops at. */
  lemma OneLineReadBack(key: string)
    requires OneLine(key)
    ensures FirstLine(key) == key
  {
    if !NoBreak(key) {
      var r := FirstLine(key);
      var j := |r| - 1;
      BreakAfter(key, |key| - 1, j);
      assert r[..j] == key[..j] && r[j] == key[j];
      assert r == r[..j] + [r[j]];
      assert key == key[..j] + [key[j]];
    }
  }

  /** A line break lies past any prefix that holds none. */
  lemma BreakAfter(s: string, n: nat, j: nat)
    requires n <= |s| && NoBreak(s[..n]) && j < |s| && IsLineBreak(s[j])
    ensures n <= j
  {
  }

  /** The file key is empty exactly when the file is. */
  lemma FirstLineEmpty(contents: string)
    ensures FirstLine(contents) == "" <==> contents == ""
  {
  }

  /** The key `current` and `forecast` send: the explicit key (flag or OW_API_KEY) whenever it is not None, else the file key, else "". */
  function ResolvedKey(file: Option<string>, explicitKey: Option<string>): (key: string)
    ensures explicitKey.Some? ==> key == explicitKey.value
    ensures explicitKey.None? ==> OneLine(key) && (key == "" || file.Some?)
  {
    if explicitKey.Some? then explicitKey.value
    else match GetApiKey(file)
      case Some(stored) => stored
      case None => ""
  }

  /**
   * The key resolution of `current` and `forecast`: start from "", replace
   * it with the file key when the file exists, then with the explicit key
   * when that is not None, even when it is "".
   */
  method ResolveApiKey(file: Option<string>, explicitKey: Option<string>) returns (key: string)
    ensures explicitKey.Some? ==> key == explicitKey.value
    ensures explicitKey.None? && file.Some? ==> key == FirstLine(file.value)
    ensures explicitKey.None? && file.None? ==> key == ""
    ensures key == ResolvedKey(file, explicitKey)
  {
    key := "";
    var stored := GetApiKey(file);
    if stored.Some? {
      key := stored.value;
    }
    if explicitKey.Some? {
      key := explicitKey.value;
    }
  }

  /**
   * The command stops for want of a key exactly when the explicit key is "",
   * or there is no explicit key and the file is missing or empty.
   */
  lemma MissingKeyIff(file: Option<string>, explicitKey: Option<string>)
    ensures ResolvedKey(file, explicitKey) == ""
        <==> explicitKey == Some("") || (explicitKey.None? && (file.None? || file == Some("")))
  {
    if explicitKey.None? && file.Some? {
      FirstLineEmpty(file.value);
    }
  }

  /** After `config` stored a one-line key, a command without an explicit key uses exactly that key. */
  lemma ConfiguredKeyUsed(previous: Option<string>, key: string)
    requires NoBreak(key)
    ensures ResolvedKey(WriteConfig(previous, key), None) == key
  {
    ConfigRoundTrip(previous, key);
  }
}
