/** Printing and its inverses: decimal numbers, joined lists and name=value words. */
module Text {
  import opened Options

  // ---- Decimal numbers ----

  function Digit(d: nat): char
    requires d < 10
  {
    '0' + d as char
  }

  function Digits(n: nat): string {
    if n < 10 then [Digit(n)] else Digits(n / 10) + [Digit(n % 10)]
  }

  function Itoa(n: int): string {
    if n < 0 then "-" + Digits(-n) else Digits(n)
  }

  predicate IsDigits(s: string) {
    s != [] && forall i :: 0 <= i < |s| ==> '0' <= s[i] <= '9'
  }

  function Value(s: string): nat
    requires forall i :: 0 <= i < |s| ==> '0' <= s[i] <= '9'
  {
    if s == [] then 0 else Value(s[..|s| - 1]) * 10 + (s[|s| - 1] - '0') as nat
  }

  function Atoi(s: string): Option<int> {
    if IsDigits(s) then Some(Value(s))
    else if s != [] && s[0] == '-' && IsDigits(s[1..]) then Some(0 - Value(s[1..]) as int)
    else None
  }

  lemma {:induction false} DigitsValue(n: nat)
    ensures IsDigits(Digits(n)) && Value(Digits(n)) == n
  {
    if n >= 10 {
      DigitsValue(n / 10);
      assert Digits(n)[..|Digits(n)| - 1] == Digits(n / 10);
    }
  }

  lemma AtoiItoa(n: int)
    ensures Atoi(Itoa(n)) == Some(n)
  {
    if n < 0 {
      DigitsValue(-n);
      assert Itoa(n)[1..] == Digits(-n);
      assert Itoa(n)[0] == '-';
    } else {
      DigitsValue(n);
    }
  }

  lemma ItoaInjective(a: int, b: int)
    requires Itoa(a) == Itoa(b)
    ensures a == b
  {
    AtoiItoa(a);
    AtoiItoa(b);
  }

  lemma ItoaWithout(n: int, c: char)
    requires c != '-' && !('0' <= c <= '9')
    ensures c !in Itoa(n)
  {
    DigitsValue(if n < 0 then -n else n);
  }

  // ---- Lists ----

  function Join(xs: seq<string>, sep: char): string {
    if xs == [] then ""
    else if |xs| == 1 then xs[0]
    else xs[0] + [sep] + Join(xs[1..], sep)
  }

  function Split(s: string, sep: char): (r: seq<string>)
    ensures r != []
  {
    if s == "" then [""]
    else
      var rest := Split(s[1..], sep);
      if s[0] == sep then [""] + rest else [[s[0]] + rest[0]] + rest[1..]
  }

  /** A printed list, where no text at all stands for no elements. */
  function ParseList(s: string, sep: char): seq<string> {
    if s == "" then [] else Split(s, sep)
  }

  lemma {:induction false} SplitAtSep(a: string, b: string, sep: char)
    requires sep !in a
    ensures Split(a + [sep] + b, sep) == [a] + Split(b, sep)
    ensures Split(a, sep) == [a]
  {
    var s := a + [sep] + b;
    if a == "" {
      assert s[1..] == b;
    } else {
      assert s[1..] == a[1..] + [sep] + b;
      SplitAtSep(a[1..], b, sep);
      assert a == [a[0]] + a[1..];
    }
  }

  lemma {:induction false} SplitJoin(xs: seq<string>, sep: char)
    requires xs != [] && forall x :: x in xs ==> sep !in x
    ensures Split(Join(xs, sep), sep) == xs
  {
    if |xs| == 1 {
      SplitAtSep(xs[0], "", sep);
    } else {
      SplitJoin(xs[1..], sep);
      SplitAtSep(xs[0], Join(xs[1..], sep), sep);
    }
  }

  lemma {:induction false} SplitPieces(s: string, sep: char)
    ensures forall x :: x in Split(s, sep) ==> sep !in x
  {
    if s != "" {
      SplitPieces(s[1..], sep);
      var rest := Split(s[1..], sep);
      assert rest[0] in rest;
      forall x | x in Split(s, sep) ensures sep !in x {
        if s[0] != sep && x == Split(s, sep)[0] {
        } else {
          assert x == "" || x in rest;
        }
      }
    }
  }

  /** A printed list reads back exactly when no element contains the separator and it is not the one empty string. */
  lemma ListRoundTripIff(xs: seq<string>, sep: char)
    ensures ParseList(Join(xs, sep), sep) == xs <==> xs != [""] && forall x :: x in xs ==> sep !in x
  {
    if xs != [] && forall x :: x in xs ==> sep !in x {
      SplitJoin(xs, sep);
      assert |xs| > 1 ==> |Join(xs, sep)| >= 1;
    }
    if ParseList(Join(xs, sep), sep) == xs {
      SplitPieces(Join(xs, sep), sep);
    }
  }

  // ---- name=value ----

  datatype Flag = Flag(name: string, value: string)

  /** Splits at the first '='. */
  function CutAtEquals(s: string): Flag {
    if s == "" then Flag("", "")
    else if s[0] == '=' then Flag("", s[1..])
    else
      var rest := CutAtEquals(s[1..]);
      Flag([s[0]] + rest.name, rest.value)
  }

  lemma {:induction false} CutPrinted(name: string, value: string)
    requires '=' !in name
    ensures CutAtEquals(name + "=" + value) == Flag(name, value)
  {
    var s := name + "=" + value;
    if name == "" {
      assert s[1..] == value;
    } else {
      assert s[1..] == name[1..] + "=" + value;
      CutPrinted(name[1..], value);
      assert name == [name[0]] + name[1..];
    }
  }

  function Word(f: Flag): string {
    "--" + f.name + "=" + f.value
  }

  /** What follows the two hyphens; a word that does not start with them is not a flag. */
  function ParseWord(w: string): Option<Flag> {
    if |w| >= 2 && w[0] == '-' && w[1] == '-' then Some(CutAtEquals(w[2..])) else None
  }

  lemma WordRoundTrip(f: Flag)
    requires '=' !in f.name
    ensures ParseWord(Word(f)) == Some(f)
  {
    assert Word(f)[2..] == f.name + "=" + f.value;
    CutPrinted(f.name, f.value);
  }

  // ---- ip:port ----

  datatype Socket = Socket(ip: string, port: int)

  function SocketText(s: Socket): string {
    s.ip + ":" + Itoa(s.port)
  }

  /** Splits at the last ':', so the address may contain colons of its own. */
  function ParseSocket(s: string): Socket {
    if s == "" then Socket("", 0)
    else if ':' !in s[1..] && s[0] == ':' then Socket("", Atoi(s[1..]).GetOr(0))
    else
      var rest := ParseSocket(s[1..]);
      Socket([s[0]] + rest.ip, rest.port)
  }

  lemma {:induction false} SocketRoundTrip(ip: string, port: int)
    ensures ParseSocket(SocketText(Socket(ip, port))) == Socket(ip, port)
  {
    var s := SocketText(Socket(ip, port));
    ItoaWithout(port, ':');
    if ip == "" {
      assert s[1..] == Itoa(port);
      AtoiItoa(port);
    } else {
      assert s[1..] == SocketText(Socket(ip[1..], port));
      assert s[1..][|ip| - 1] == ':';
      SocketRoundTrip(ip[1..], port);
      assert ip == [ip[0]] + ip[1..];
    }
  }

  lemma {:induction false} ParsedIpWithout(s: string, c: char)
    requires c !in s
    ensures c !in ParseSocket(s).ip
  {
    if s != "" {
      ParsedIpWithout(s[1..], c);
    }
  }

  lemma SocketTextWithout(s: Socket, c: char)
    requires c != '-' && c != ':' && !('0' <= c <= '9') && c !in s.ip
    ensures c !in SocketText(s) && SocketText(s) != ""
  {
    ItoaWithout(s.port, c);
  }

  function BoolText(b: bool): string {
    if b then "true" else "false"
  }

  function ParseBool(s: string): Option<bool> {
    if s == "true" then Some(true) else if s == "false" then Some(false) else None
  }
}
