/** The code-entry accumulator of the main loop: a digit counter moved by the
    increment and decrement buttons, a four-slot entered-code buffer filled by
    the save button, and the comparison against the stored code. */
module CodeEntry {

  const CODE_LENGTH: nat := 4
  const MAX_COUNT: int := 9
  /** The zero byte that marks an unused slot. */
  const NUL: char := 0 as char
  /** The stored access code. */
  const SAVED_PASSWORD: seq<char> := ['1', '2', '3', '4']

  /** The entry state: counter `pcount`, next free slot `passwordIndex`, and
      the entered-code buffer `input`. */
  datatype Entry = Entry(pcount: int, passwordIndex: int, input: seq<char>)

  predicate IsDigit(c: char) {
    '0' <= c <= '9'
  }

  /** The character `'0' + d` stored by a save. */
  function DigitChar(d: int): (c: char)
    requires 0 <= d <= 9
    ensures IsDigit(c)
    ensures c as int - '0' as int == d
  {
    ('0' as int + d) as char
  }

  /** The bounds the accumulator keeps: counter in [0, 9], index in [0, 4],
      saved slots hold digits and slots at or past the index are unused. */
  predicate Valid(e: Entry) {
    && 0 <= e.pcount <= MAX_COUNT
    && 0 <= e.passwordIndex <= CODE_LENGTH
    && |e.input| == CODE_LENGTH
    && (forall k :: 0 <= k < e.passwordIndex ==> IsDigit(e.input[k]))
    && (forall k :: e.passwordIndex <= k < CODE_LENGTH ==> e.input[k] == NUL)
  }

  /** The entry state at power-up and after every access sequence. */
  function Empty(): (e: Entry)
    ensures Valid(e)
    ensures e.pcount == 0 && e.passwordIndex == 0
    ensures forall k :: 0 <= k < CODE_LENGTH ==> e.input[k] == NUL
  {
    Entry(0, 0, [NUL, NUL, NUL, NUL])
  }

  /** The increment button: one step up, unless the counter is already 9. */
  function Increment(e: Entry, pressed: bool): (r: Entry)
    requires Valid(e)
    ensures Valid(r)
    ensures r.passwordIndex == e.passwordIndex && r.input == e.input
    ensures r.pcount != e.pcount <==> pressed && e.pcount < MAX_COUNT
    ensures r.pcount != e.pcount ==> r.pcount == e.pcount + 1
  {
    if pressed && e.pcount < MAX_COUNT then e.(pcount := e.pcount + 1) else e
  }

  /** The decrement button: one step down, unless the counter is already 0. */
  function Decrement(e: Entry, pressed: bool): (r: Entry)
    requires Valid(e)
    ensures Valid(r)
    ensures r.passwordIndex == e.passwordIndex && r.input == e.input
    ensures r.pcount != e.pcount <==> pressed && e.pcount > 0
    ensures r.pcount != e.pcount ==> r.pcount == e.pcount - 1
  {
    if pressed && e.pcount > 0 then e.(pcount := e.pcount - 1) else e
  }

  /** The save button: the counter's digit goes into the next free slot, and
      a full buffer ignores the press. */
  function Save(e: Entry, pressed: bool): (r: Entry)
    requires Valid(e)
    ensures Valid(r)
    ensures r.pcount == e.pcount
    ensures r != e <==> pressed && e.passwordIndex < CODE_LENGTH
    ensures r != e ==>
              && r.passwordIndex == e.passwordIndex + 1
              && r.input[e.passwordIndex] == DigitChar(e.pcount)
              && forall k :: 0 <= k < CODE_LENGTH && k != e.passwordIndex ==> r.input[k] == e.input[k]
  {
    if pressed && e.passwordIndex < CODE_LENGTH then
      Entry(e.pcount, e.passwordIndex + 1, e.input[e.passwordIndex := DigitChar(e.pcount)])
    else
      e
  }

  /** One loop iteration's buttons, handled in the order increment, save,
      decrement. */
  function Accumulate(e: Entry, inc: bool, save: bool, dec: bool): (r: Entry)
    requires Valid(e)
    ensures Valid(r)
    ensures -1 <= r.pcount - e.pcount <= 1
    ensures r.passwordIndex == e.passwordIndex || r.passwordIndex == e.passwordIndex + 1
    ensures !save ==> r.passwordIndex == e.passwordIndex && r.input == e.input
  {
    Decrement(Save(Increment(e, inc), save), dec)
  }

  /** A save pressed together with increment stores the incremented digit. */
  lemma SaveSeesIncrement(e: Entry, dec: bool)
    requires Valid(e) && e.pcount < MAX_COUNT && e.passwordIndex < CODE_LENGTH
    ensures Accumulate(e, true, true, dec).input[e.passwordIndex] == DigitChar(e.pcount + 1)
  {
  }

  /** A save stores the counter as the increment button left it, before any
      decrement: with increment released that is the old counter, and at 9 it
      stays 9 whatever is pressed. */
  lemma SavePrecedesDecrement(e: Entry, inc: bool, dec: bool)
    requires Valid(e) && e.passwordIndex < CODE_LENGTH
    ensures Accumulate(e, inc, true, dec).input[e.passwordIndex] == DigitChar(Increment(e, inc).pcount)
    ensures !inc || e.pcount == MAX_COUNT ==>
              Accumulate(e, inc, true, dec).input[e.passwordIndex] == DigitChar(e.pcount)
  {
  }

  /** A save on a full buffer changes neither the buffer nor the index. */
  lemma SaveOnFullBufferIgnored(e: Entry, inc: bool, dec: bool)
    requires Valid(e) && e.passwordIndex == CODE_LENGTH
    ensures Accumulate(e, inc, true, dec).passwordIndex == CODE_LENGTH
    ensures Accumulate(e, inc, true, dec).input == e.input
  {
  }

  /** A full buffer holds four digits and no terminating zero byte. */
  lemma FullBufferUnterminated(e: Entry)
    requires Valid(e) && e.passwordIndex == CODE_LENGTH
    ensures NUL !in e.input
  {
  }

  /** The stored-code comparison loop from position `i` on: it gives up at
      the first differing slot. */
  function CheckFrom(password: seq<char>, input: seq<char>, i: nat): (ok: bool)
    requires |password| == CODE_LENGTH && |input| == CODE_LENGTH && i <= CODE_LENGTH
    ensures ok <==> forall k :: i <= k < CODE_LENGTH ==> password[k] == input[k]
    decreases CODE_LENGTH - i
  {
    if i == CODE_LENGTH then true
    else if password[i] != input[i] then false
    else CheckFrom(password, input, i + 1)
  }

  /** `checkPassword`: true exactly when all four slots agree. */
  function CheckPassword(password: seq<char>, input: seq<char>): (ok: bool)
    requires |password| == CODE_LENGTH && |input| == CODE_LENGTH
    ensures ok <==> forall k :: 0 <= k < CODE_LENGTH ==> password[k] == input[k]
    ensures ok <==> password == input
  {
    CheckFrom(password, input, 0)
  }

  /** A single differing slot is enough to reject. */
  lemma OneDifferenceRejects(password: seq<char>, input: seq<char>, k: nat)
    requires |password| == CODE_LENGTH && |input| == CODE_LENGTH
    requires k < CODE_LENGTH && password[k] != input[k]
    ensures !CheckPassword(password, input)
  {
  }

  /** Entering 1, 2, 3, 5 is rejected by the stored code 1, 2, 3, 4. */
  lemma WrongLastDigitRejected()
    ensures !CheckPassword(SAVED_PASSWORD, ['1', '2', '3', '5'])
  {
  }
}
