/**
 * Where the program keeps its state on disk (chatgpt/chatgpt.py, lines 9,
 * 19-20, 57, 70, 74, 134 and 157): one global file for the assistant id and,
 * per invoking shell, three files named after the parent process id.
 */
module SessionPaths {

  /** The character of a decimal digit. */
  function Digit(d: nat): (c: char)
    requires d < 10
    ensures '0' <= c <= '9'
  {
    "0123456789"[d]
  }

  /** The value of a decimal digit character. */
  function DigitValue(c: char): nat
  {
    if '0' <= c <= '9' then (c as int - '0' as int) as nat else 0
  }

  /** str(n) for a natural number: its decimal digits without leading zeros. */
  function DecimalString(n: nat): (r: string)
    ensures |r| >= 1
    ensures forall i :: 0 <= i < |r| ==> '0' <= r[i] <= '9'
    ensures r[0] == '0' ==> n == 0
    ensures |r| > 1 ==> r[0] != '0'
    decreases n
  {
    if n < 10 then [Digit(n)] else DecimalString(n / 10) + [Digit(n % 10)]
  }

  /** The number a string of decimal digits denotes. */
  function ParseDecimal(s: string): nat
  {
    if |s| == 0 then 0 else ParseDecimal(s[..|s| - 1]) * 10 + DigitValue(s[|s| - 1])
  }

  lemma DigitRoundTrip(d: nat)
    requires d < 10
    ensures DigitValue(Digit(d)) == d
  {
  }

  /** Reading back the decimal string of n gives n. */
  lemma {:induction false} DecimalRoundTrip(n: nat)
    ensures ParseDecimal(DecimalString(n)) == n
    decreases n
  {
    var r := DecimalString(n);
    if n < 10 {
      DigitRoundTrip(n);
      assert r[..0] == [];
    } else {
      DecimalRoundTrip(n / 10);
      DigitRoundTrip(n % 10);
      assert r[..|r| - 1] == DecimalString(n / 10);
    }
  }

  /** Different process ids give different decimal strings. */
  lemma DecimalInjective(p: nat, q: nat)
    ensures DecimalString(p) == DecimalString(q) <==> p == q
  {
    DecimalRoundTrip(p);
    DecimalRoundTrip(q);
  }

  /** The per-session cache files. */
  datatype Slot = ThreadId | LastResponse | LastFileId

  /** The name suffix of each per-session file. */
  function Suffix(slot: Slot): string
  {
    match slot
    case ThreadId => "_thread_id"
    case LastResponse => "_last"
    case LastFileId => "_last_file"
  }

  /**
   * get_shell_working_file: "/tmp/" followed by the parent process id; the
   * id can be read back from the name.
   */
  function ShellWorkingFile(ppid: nat): (r: string)
    ensures |r| > 5 && r[..5] == "/tmp/"
    ensures r[5..] == DecimalString(ppid) && ParseDecimal(r[5..]) == ppid
  {
    DecimalRoundTrip(ppid);
    var r := "/tmp/" + DecimalString(ppid);
    assert r[5..] == DecimalString(ppid);
    r
  }

  /** The file of one slot of the session of parent process `ppid`. */
  function SessionFile(ppid: nat, slot: Slot): string
  {
    ShellWorkingFile(ppid) + Suffix(slot)
  }

  /** Where the assistant id is kept, relative to the home directory. */
  const AssistantIdPath: string := ".gpt/assistant_id"

  /** GLOBAL_ASSISTANT_FILE: `.gpt/assistant_id` under the home directory. */
  function GlobalAssistantFile(home: string): string
  {
    (if |home| > 0 && home[|home| - 1] == '/' then home else home + "/") + AssistantIdPath
  }

  /**
   * A session file is "/tmp/", the decimal digits of the process id (read
   * back as that id) and the slot's suffix.
   */
  lemma SessionFileShape(ppid: nat, slot: Slot)
    ensures var r, sfx := SessionFile(ppid, slot), Suffix(slot);
      && |r| > 5 + |sfx| && r[..5] == "/tmp/" && r[|r| - |sfx|..] == sfx
      && (forall i :: 5 <= i < |r| - |sfx| ==> '0' <= r[i] <= '9')
      && ParseDecimal(r[5..|r| - |sfx|]) == ppid
  {
    var w, sfx := ShellWorkingFile(ppid), Suffix(slot);
    var r := w + sfx;
    assert r[..5] == w[..5];
    assert r[5..|r| - |sfx|] == w[5..];
  }

  /**
   * The assistant file is the home directory, one '/' (the one ending the
   * home directory, if any) and ".gpt/assistant_id".
   */
  lemma GlobalAssistantFileShape(home: string)
    ensures var r := GlobalAssistantFile(home);
      && |r| > |AssistantIdPath| && r[..|home|] == home && r[|r| - |AssistantIdPath| - 1..] == "/" + AssistantIdPath
      && |r| == |home| + |AssistantIdPath| + (if |home| > 0 && home[|home| - 1] == '/' then 0 else 1)
  {
    var name := AssistantIdPath;
    if |home| > 0 && home[|home| - 1] == '/' {
      DirectoryJoin(home, name);
    } else {
      DirectoryJoin(home + "/", name);
      assert (home + "/")[..|home|] == home;
    }
  }

  /** A directory ending in '/' followed by a name. */
  lemma DirectoryJoin(dir: string, name: string)
    requires |dir| > 0 && dir[|dir| - 1] == '/'
    ensures var r := dir + name;
      r[..|dir|] == dir && r[|r| - |name| - 1..] == "/" + name
  {
    var r := dir + name;
    assert r[|r| - |name| - 1..] == [dir[|dir| - 1]] + name;
  }

  /**
   * Session files are distinct per process id and per slot: two sessions
   * never share a file, and within a session the three slots never collide.
   */
  lemma SessionFileInjective(p: nat, a: Slot, q: nat, b: Slot)
    ensures SessionFile(p, a) == SessionFile(q, b) <==> p == q && a == b
  {
    var x, y := SessionFile(p, a), SessionFile(q, b);
    if x == y {
      // the slots end in different characters: 'd', 't' and 'e'
      assert x[|x| - 1] == Suffix(a)[|Suffix(a)| - 1];
      assert y[|y| - 1] == Suffix(b)[|Suffix(b)| - 1];
      assert a == b;
      var u, v := ShellWorkingFile(p), ShellWorkingFile(q);
      assert x[..|x| - |Suffix(a)|] == u;
      assert y[..|y| - |Suffix(b)|] == v;
      assert ParseDecimal(u[5..]) == p && ParseDecimal(v[5..]) == q;
    }
  }

  /** The global assistant file is never one of the session files. */
  lemma AssistantFileIsNotSessionFile(home: string, ppid: nat, slot: Slot)
    ensures GlobalAssistantFile(home) != SessionFile(ppid, slot)
  {
    var g, x := GlobalAssistantFile(home), SessionFile(ppid, slot);
    var gt, sfx := g[|g| - 18..], Suffix(slot);
    assert g[|g| - 1] == gt[17] == 'd' && g[|g| - 4] == gt[14] == 't';
    var xt := x[|x| - |sfx|..];
    assert x[|x| - 1] == xt[|sfx| - 1] == sfx[|sfx| - 1] && x[|x| - 4] == xt[|sfx| - 4] == sfx[|sfx| - 4];
  }
}
