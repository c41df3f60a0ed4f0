/** The control command of the merge queue: how the coordinator prints it and how the executor parses it. */
module ControlCommand {
  import opened Wrappers
  import opened Decimals
  import opened Strings

  const PREFIX := "/oteryn-mq-submit "

  datatype Command = Command(repository: string, pullRequest: nat, head: string, main: string)

  predicate AllowedRepository(s: string)
  {
    s in ["Oteryn/Oteryn", "Oteryn/Oteryn-Game", "Oteryn/Oteryn-Platform", "Oteryn/Oteryn-Atlas"]
  }

  /** A positive numeral without leading zeros. */
  predicate PositiveNumeral(s: string)
  {
    Canonical(s) && s[0] != '0'
  }

  predicate ValidCommand(c: Command)
  {
    AllowedRepository(c.repository) && c.pullRequest > 0 && IsSha(c.head) && IsSha(c.main)
  }

  function Print(c: Command): string
  {
    Fields(c.repository, Decimal(c.pullRequest), c.head, c.main)
  }

  function Fields(repository: string, digits: string, head: string, main: string): string
  {
    PREFIX + repository + " " + digits + " " + head + " " + main
  }

  /** The four groups of the closed grammar, in order. */
  ghost predicate Groups(text: string, repository: string, digits: string, head: string, main: string)
  {
    AllowedRepository(repository) && PositiveNumeral(digits) && IsSha(head) && IsSha(main) &&
    text == Fields(repository, digits, head, main)
  }

  /** The text up to the first blank, and what follows it. */
  function Word(s: string): Option<(string, string)>
  {
    var i := Find(s, ' ');
    if i.None? then None else Some((s[..i.value], s[i.value + 1..]))
  }

  function Parse(text: string): Option<Command>
  {
    if !(PREFIX <= text) then None else
      var first := Word(text[|PREFIX|..]);
      if first.None? then None else
        var second := Word(first.value.1);
        if second.None? then None else
          var third := Word(second.value.1);
          if third.None? then None else
            var repository, digits, head, main := first.value.0, second.value.0, third.value.0, third.value.1;
            if AllowedRepository(repository) && PositiveNumeral(digits) && IsSha(head) && IsSha(main)
            then Some(Command(repository, Numeral(digits), head, main))
            else None
  }

  lemma WordExactly(s: string, w: string, rest: string)
    ensures Word(s) == Some((w, rest)) <==> s == w + " " + rest && ' ' !in w
  {
    if s == w + " " + rest && ' ' !in w {
      assert s[..|w|] == w && s[|w| + 1..] == rest;
      FindAt(s, ' ', |w|);
    }
  }

  /** No group holds a blank, so every text has at most one reading. */
  lemma NoBlanks(repository: string, digits: string, head: string)
    requires AllowedRepository(repository) && PositiveNumeral(digits) && IsSha(head)
    ensures ' ' !in repository && ' ' !in digits && ' ' !in head
  {
  }

  lemma FieldsInOrder(repository: string, digits: string, head: string, main: string)
    ensures Fields(repository, digits, head, main) == PREFIX + (repository + " " + (digits + " " + (head + " " + main)))
  {
  }

  lemma ParseGroups(text: string, repository: string, digits: string, head: string, main: string)
    requires Groups(text, repository, digits, head, main)
    ensures Parse(text) == Some(Command(repository, Numeral(digits), head, main))
  {
    NoBlanks(repository, digits, head);
    FieldsInOrder(repository, digits, head, main);
    var third := head + " " + main;
    var second := digits + " " + third;
    var first := repository + " " + second;
    assert text[|PREFIX|..] == first;
    WordExactly(first, repository, second);
    WordExactly(second, digits, third);
    WordExactly(third, head, main);
  }

  /** Printing a valid command and parsing it gives its coordinates back. */
  lemma ParsePrint(c: Command)
    requires ValidCommand(c)
    ensures Parse(Print(c)) == Some(c)
  {
    NumeralOfDecimal(c.pullRequest);
    ParseGroups(Print(c), c.repository, Decimal(c.pullRequest), c.head, c.main);
  }

  /** The words that the parser finds make up the text. */
  lemma WordsJoin(text: string) returns (repository: string, digits: string, head: string, main: string)
    requires Parse(text).Some?
    ensures Groups(text, repository, digits, head, main)
    ensures Parse(text).value == Command(repository, Numeral(digits), head, main)
  {
    var rest := text[|PREFIX|..];
    var first := Word(rest).value;
    var second := Word(first.1).value;
    var third := Word(second.1).value;
    repository, digits, head, main := first.0, second.0, third.0, third.1;
    WordExactly(rest, repository, first.1);
    WordExactly(first.1, digits, second.1);
    WordExactly(second.1, head, main);
    assert text == PREFIX + rest;
    FieldsInOrder(repository, digits, head, main);
  }

  /** Whatever the parser accepts is a valid command, and printing it gives the text back. */
  lemma PrintParse(text: string)
    requires Parse(text).Some?
    ensures ValidCommand(Parse(text).value) && Print(Parse(text).value) == text
  {
    var repository, digits, head, main := WordsJoin(text);
    NumeralPositive(digits);
    DecimalOfNumeral(digits);
  }

  /** The parser accepts exactly the closed grammar. */
  lemma ParseExactly(text: string)
    ensures Parse(text).Some? <==> exists repository, digits, head, main :: Groups(text, repository, digits, head, main)
  {
    if Parse(text).Some? {
      PrintParse(text);
      var c := Parse(text).value;
      assert Groups(text, c.repository, Decimal(c.pullRequest), c.head, c.main);
    }
    if repository, digits, head, main :| Groups(text, repository, digits, head, main) {
      ParseGroups(text, repository, digits, head, main);
    }
  }
}
