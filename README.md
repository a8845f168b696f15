# Students and mentors: record constructors

This project models the record classes of a small course-tracking
program: `Student`, `Mentor`, and the two `Mentor` subclasses `Lecturer` and
`Reviewer`. The program's only logic is in their constructors and read-only
properties:

- The constructors check argument types in the order name, surname, gender,
  and raise `TypeError` on the first argument that is not a `str`.
- A student's gender is checked after the type checks. It must become `"М"` or
  `"Ж"` (Cyrillic EM and ZHE) after `strip().upper()`, otherwise the
  constructor raises `ValueError`.
- Names and surnames are stored as `strip().title()`, and the gender as
  `strip().upper()`.
- A student starts with no finished courses, no courses in progress and an
  empty grade book. A mentor starts with no attached courses. A lecturer also
  gets an empty grade book, and a reviewer gets nothing extra.

How it is modelled:

- `text.dfy` (module `Text`) defines Python's `str.strip()`, `str.upper()`
  and `str.title()`:
  - `strip` drops characters that satisfy `IsSpace` from both ends.
    `IsSpace` is exactly the set of 29 code points for which Python's
    `str.isspace` is true.
  - `upper` maps each character.
  - `title` is Python's scan with a "previous character was cased" flag. The
    flag is taken from the original character, as CPython does.
  - The case maps cover the letter pairs of ASCII Latin, Latin-1
    (U+00C0..U+00DE with U+00E0..U+00FE, without the signs U+00D7 and
    U+00F7) and the Cyrillic block U+0400..U+045F. On those, Python's maps
    are one-to-one and title case equals upper case.
  - Each operation is paired with an independent characterisation:
    - strip: a trimmed slice whose ends are not whitespace, and that slice is
      unique;
    - upper and title: what each output character is, index by index;
    - title: the title-case shape, every cased run beginning upper case and
      continuing lower case.
  - Idempotence is also proved for each operation.
- `people.dfy` (module `People`) defines the arguments and the classes:
  - A Python argument is a `Value`, either `Str(s)` or `Other`. This is what
    `isinstance(x, str)` can tell apart.
  - The exceptions are `InitError` values: `TypeError(param)` names the
    parameter whose check failed, and `ValueError` is the gender error.
  - `StudentInitCheck` and `MentorInitCheck` give the outcome of the checks as
    functions. Each class's static `Create` method runs the same checks as
    statements, in the same order. It either returns the error or allocates
    the object with the class constructor, which performs the field
    assignments.
  - The underscored attributes (`_name`, `_surname`, `_gender`), which have
    no setter, are `const` fields. The public lists and dictionaries are `var`
    fields.
  - `Lecturer` and `Reviewer` each hold their inherited `Mentor` part in a
    `mentor` field. Their `Create` calls `Mentor.Create` first, as
    `super().__init__` does, and passes its exception on.
  - `InheritanceScenario` and `GenderScenario` are callers that use only the
    contracts. The first builds the demo's `Lecturer('Иван', 'Иванов')` and
    `Reviewer('Пётр', 'Петров')` and shows that both have an empty
    `mentor.coursesAttached`. The second
    shows that the gender `" ж "` is accepted and stored as `"Ж"`.

The only operations the code defines are the constructors and properties.
The `Student` docstring (students_and_mentors.py:17) names a method
`rate_lecture`, but the code defines no rating, averaging or comparison
operation, so none is modelled.

## Model

| member | source | states |
|---|---|---|
| `Text.IsSpace` | students_and_mentors.py:40-42 | Python's `str.isspace` on one character, the set of characters `strip()` removes |
| `Text.IsCased` | students_and_mentors.py:40-41 | Python's cased-character property on the modelled table, which drives the flag of `title()` |
| `Text.Strip` | students_and_mentors.py:40-42 | `str.strip()` with no argument: leading, then trailing whitespace removed; never longer than its argument |
| `Text.Upper` | students_and_mentors.py:37 | `str.upper()`: each character mapped by `UpperChar`, length kept |
| `Text.TitleFrom` | students_and_mentors.py:40-41 | the scan of `str.title()` from a given "previous character was cased" flag, length kept |
| `Text.Title` | students_and_mentors.py:86-87 | `str.title()`: the scan started with the flag unset, length kept |
| `People.NormalName` | students_and_mentors.py:40-41 | the expression `strip().title()` that names and surnames are stored as, never longer than its argument |
| `People.NormalGender` | students_and_mentors.py:42 | the expression `strip().upper()` that the gender is checked and stored as, never longer than its argument |
| `People.StudentInitCheck` | students_and_mentors.py:30-38 | the checks of `Student.__init__` in source order: type checks of name, surname and gender, then the gender value check |
| `People.MentorInitCheck` | students_and_mentors.py:81-84 | the checks of `Mentor.__init__` in source order: type checks of name, then surname |
| `Text.UpperChar` | students_and_mentors.py:42 | upper-cases a cased character and leaves an uncased one alone; casedness and whitespace are kept |
| `Text.LowerChar` | students_and_mentors.py:40 | lower-cases a cased character (as `title` does after a cased one) and leaves an uncased one alone; casedness and whitespace are kept |
| `Text.TitleChar` | students_and_mentors.py:40 | title-cases a cased character (as `title` does at the start of a word) and leaves an uncased one alone; casedness and whitespace are kept |
| `Text.StripIsTrimmed` | students_and_mentors.py:40-42 | `strip()` returns a slice of its argument with only whitespace cut away on each side and a non-whitespace character at each end of a non-empty result |
| `Text.TrimmedIsStrip` | students_and_mentors.py:40-42 | every such trimmed slice is the result of `strip()`, so the result is unique (the converse of `StripIsTrimmed`) |
| `Text.StripIdempotent` | students_and_mentors.py:40-42 | stripping twice is stripping once |
| `Text.UpperAt` | students_and_mentors.py:37 | `upper()` keeps the length and maps the character at each index by its upper-case form |
| `Text.UpperIdempotent` | students_and_mentors.py:42 | upper-casing twice is upper-casing once |
| `Text.UpperIsLetter` | students_and_mentors.py:37 | on the modelled table, a string upper-cases to the one-letter string of an upper-case letter exactly when it is that letter or its lower-case partner |
| `Text.TitleAt` | students_and_mentors.py:40-41 | `title()` keeps the length; each output character is the lower-case form of the input character if the input character before it is cased, and its title-case form otherwise |
| `Text.TitleIsTitled` | students_and_mentors.py:40-41 | on the modelled table, in the result of `title()`, a cased character is upper case exactly when it starts a run of cased characters |
| `Text.TitleKeepsSpaces` | students_and_mentors.py:40-41 | `title()` keeps whitespace where it was and creates none |
| `Text.TitleIdempotent` | students_and_mentors.py:40-41 | on the modelled table, title-casing twice is title-casing once |
| `People.NormalNameIsNormal` | students_and_mentors.py:40-41 | on the modelled table, a name stored as `strip().title()` has no surrounding whitespace and is title-cased |
| `People.NormalNameIdempotent` | students_and_mentors.py:86-87 | on the modelled table, normalising an already stored name gives it back unchanged |
| `People.NormalGenderIdempotent` | students_and_mentors.py:42 | normalising an already stored gender gives it back unchanged |
| `People.GenderAcceptedIff` | students_and_mentors.py:37-38 | `gender.strip().upper()` is in `["М", "Ж"]` exactly when the stripped gender is one of the four letters М, м, Ж, ж |
| `People.StudentTypeChecksFirst` | students_and_mentors.py:30-38 | a non-string argument raises `TypeError` for the first of name, surname, gender that is not a string; `ValueError` is raised only when all three are strings |
| `People.StudentValueErrorIff` | students_and_mentors.py:30-38 | the student constructor raises `ValueError` exactly when all arguments are strings and the stripped gender is not one of М, м, Ж, ж |
| `People.StudentPassIff` | students_and_mentors.py:30-38 | the student constructor raises nothing exactly when all arguments are strings and the stripped gender is one of М, м, Ж, ж |
| `People.MentorPassIff` | students_and_mentors.py:81-84 | the mentor constructor raises nothing exactly when both arguments are strings; otherwise `TypeError` for the first non-string; never `ValueError` |
| `People.NormalNameLatinExample` | students_and_mentors.py:40 | `" élise "` is stored as `"Élise"`, as Python's `strip().title()` gives |
| `People.StudentChecksNamesAsMentor` | students_and_mentors.py:81-84 | the student's name and surname checks reject exactly what the mentor's reject, with the same error; arguments that build a student also build a mentor |
| `People.Student.constructor` | students_and_mentors.py:40-45 | stores `strip().title()` of name and surname and `strip().upper()` of gender; all three course collections start empty; the stored values are normalised and the gender is a code |
| `People.Student.Create` | students_and_mentors.py:21-45 | raises exactly the error the student checks give; otherwise returns a fresh student with the normalised fields, a gender in `["М", "Ж"]` and empty course lists and grades |
| `People.Student.Name` | students_and_mentors.py:47-50 | the stored name, unchanged, which has no surrounding whitespace and is title-cased |
| `People.Student.Surname` | students_and_mentors.py:52-55 | the stored surname, unchanged, which has no surrounding whitespace and is title-cased |
| `People.Student.Gender` | students_and_mentors.py:57-60 | the stored gender, unchanged, which is `"М"` or `"Ж"` |
| `People.Mentor.constructor` | students_and_mentors.py:86-88 | stores `strip().title()` of name and surname, both then in normal form; no attached courses |
| `People.Mentor.Create` | students_and_mentors.py:73-88 | raises `TypeError` for the first non-string of name and surname; otherwise returns a fresh mentor with normalised names and no attached courses |
| `People.Mentor.Name` | students_and_mentors.py:90-93 | the stored name, unchanged and in normal form |
| `People.Mentor.Surname` | students_and_mentors.py:95-98 | the stored surname, unchanged and in normal form |
| `People.Lecturer.constructor` | students_and_mentors.py:115-116 | keeps the given mentor part and starts with an empty grade book |
| `People.Lecturer.Create` | students_and_mentors.py:113-116 | raises what the mentor constructor raises; otherwise a fresh lecturer whose fresh mentor part has normalised names and no attached courses, with an empty grade book |
| `People.Reviewer.constructor` | students_and_mentors.py:131-133 | keeps the given mentor part and adds nothing |
| `People.Reviewer.Create` | students_and_mentors.py:131-133 | raises what the mentor constructor raises; otherwise a fresh reviewer whose fresh mentor part has normalised names and no attached courses |

## Left out

- Rating, averaging, comparison, sorting and string rendering: the code does not define any of them.
- The `__main__` demo with its `print` calls (students_and_mentors.py:136-143) is output only. `InheritanceScenario` establishes the facts it prints from the contracts: both objects have a `Mentor` part, and both start with empty `courses_attached`.
- The exception messages and the type name they quote: the model records only the kind of exception and the parameter it concerns.
- Case tables beyond the letter pairs of ASCII Latin, Latin-1 and Cyrillic U+0400..U+045F. Every other character is treated as uncased: `upper`, `lower` and `title` leave it unchanged. Because `title()` takes its flag from casedness, the letter after such a character is also title-cased as at a word start. That letter can itself be in the table. For example, Python's `"straße".title()` is `"Straße"`, but the model gives `"StraßE"`, because it treats `ß` as uncased. This covers `ª`, `µ`, `º`, `ß`, `ÿ`, Greek and every other script. It also covers Python's one-to-many mappings such as `ß`→`SS` and the special title-case letters. Several proved facts hold only on this table and fail for Python's full `str` methods:
  - `TitleIsTitled`, `TitleIdempotent`, `People.NormalNameIsNormal` and `People.NormalNameIdempotent`: some characters title-case to a letter followed by an uncased combining mark. An example is `ǰ` (U+01F0), which becomes `J` followed by U+030C. The next letter then starts a new word when the result is title-cased again. In Python, `"  ǰones ".strip().title()` is `"J̌ones"`, which is not title-shaped, and normalising it again gives `"J̌Ones"`.
  - `UpperIsLetter`: in Python it holds only for upper-case letters with no other preimage under `upper`, and М and Ж are among them. It fails, for example, for `I` (`ı`, U+0131, upper-cases to `I`), for `S` (`ſ`, U+017F) and for В, Д, О, С, Т, Ъ (U+1C80..U+1C86).
  - `GenderAcceptedIff`, `StudentValueErrorIff` and `StudentPassIff` rest on `UpperIsLetter` for М and Ж. For those two, Python agrees: no other character upper-cases to `М` or `Ж`. The model cannot prove this for Python's full tables, though.
- A Python `str` can hold lone surrogate code points (U+D800..U+DFFF); a Dafny `string` cannot, so such names are outside the model.
- Appends to `finished_courses`, `courses_in_progress` and `courses_attached` after construction are plain list appends by callers, with no logic of their own.
- A Python `Lecturer` or `Reviewer` is one object. Here it is a second object that holds its `Mentor` part. `Create` allocates that part fresh, so no two subclass objects share one in the model.
- People.Student.Name: like the other properties, it requires `Valid()`, the invariant that every object built by `Create` has; it states nothing for an object built some other way.
