/**
 * Reading one command: a line of input as `read_line` delivers it (with
 * its '\n', except at end of input), classified by its first character.
 * The argument of a command is the raw rest of the line after skipping one
 * or two characters, so it keeps the trailing '\n'.
 */
module Commands {

  datatype Command =
    | EndOfInput                  // no character at all: `read_line` hit end of input
    | Append(text: string)        // '+'
    | Quit                        // 'q'
    | Rename(name: string)        // 'n'
    | Write                       // 'w'
    | Print                       // 'p'
    | ShowLine                    // 'l'
    | GoTo(arg: string)           // 'g'
    | Replace(text: string)       // 'r'
    | RepeatLast                  // 'R'
    | Search(needle: string)      // 'S'
    | InsertBelow(text: string)   // 'd'
    | Copy                        // 'c'
    | DuplicatePrevious           // 'D'
    | Paste                       // 'v'
    | Forward                     // '.'
    | Back                        // ','
    | Remove                      // '-'
    | OpenFile(path: string)      // 'o'
    | Clear                       // 'C'
    | Help                        // '?'
    | Unknown(prefix: char)       // any other first character

  /** The first characters that name a command. */
  const Prefixes: set<char> := {'+', 'q', 'n', 'w', 'p', 'l', 'g', 'r', 'R', 'S', 'd', 'c', 'D', 'v', '.', ',', '-', 'o', 'C', '?'}

  /** `input.chars().skip(k).collect()`: what follows the first `k` characters, or nothing if there are fewer. */
  function Skip(input: string, k: nat): (r: string)
    ensures |input| >= k ==> input == input[..k] + r
    ensures |input| < k ==> r == []
  {
    if |input| >= k then input[k..] else []
  }

  /** The character that selects a command: the first character that selects it in `run`'s `match`, or the unrecognised prefix. */
  function Key(c: Command): char
    requires c != EndOfInput
  {
    match c
    case Append(_) => '+'
    case Quit => 'q'
    case Rename(_) => 'n'
    case Write => 'w'
    case Print => 'p'
    case ShowLine => 'l'
    case GoTo(_) => 'g'
    case Replace(_) => 'r'
    case RepeatLast => 'R'
    case Search(_) => 'S'
    case InsertBelow(_) => 'd'
    case Copy => 'c'
    case DuplicatePrevious => 'D'
    case Paste => 'v'
    case Forward => '.'
    case Back => ','
    case Remove => '-'
    case OpenFile(_) => 'o'
    case Clear => 'C'
    case Help => '?'
    case Unknown(p) => p
  }

  /**
   * The dispatch of `match &input.chars().nth(0)`: the first character
   * selects the command, and a command that takes text gets the rest of the
   * line after one character (`+ r S d`) or two (`n g o`).
   */
  function Classify(input: string): (c: Command)
    ensures c == EndOfInput <==> input == []
    ensures input != [] ==> Key(c) == input[0]
    ensures input != [] ==> (c.Unknown? <==> input[0] !in Prefixes)
    ensures c.Append? || c.Replace? || c.InsertBelow? ==> c.text == Skip(input, 1)
    ensures c.Search? ==> c.needle == Skip(input, 1)
    ensures c.Rename? ==> c.name == Skip(input, 2)
    ensures c.GoTo? ==> c.arg == Skip(input, 2)
    ensures c.OpenFile? ==> c.path == Skip(input, 2)
  {
    if input == [] then EndOfInput
    else
      match input[0]
      case '+' => Append(Skip(input, 1))
      case 'q' => Quit
      case 'n' => Rename(Skip(input, 2))
      case 'w' => Write
      case 'p' => Print
      case 'l' => ShowLine
      case 'g' => GoTo(Skip(input, 2))
      case 'r' => Replace(Skip(input, 1))
      case 'R' => RepeatLast
      case 'S' => Search(Skip(input, 1))
      case 'd' => InsertBelow(Skip(input, 1))
      case 'c' => Copy
      case 'D' => DuplicatePrevious
      case 'v' => Paste
      case '.' => Forward
      case ',' => Back
      case '-' => Remove
      case 'o' => OpenFile(Skip(input, 2))
      case 'C' => Clear
      case '?' => Help
      case _ => Unknown(input[0])
  }
}
