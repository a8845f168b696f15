/**
  The record classes of the school model: `Student`, `Mentor` and its two
  kinds `Lecturer` and `Reviewer`, as far as their constructors and
  read-only properties go.

  A Python constructor call `Student(name, surname, gender)` is the static
  method `Student.Create`: it runs the argument checks in the order the
  source does and either reports the exception that would be raised or
  returns a freshly built object. The Dafny constructors are the field
  assignments that follow the checks.
 */
module People {
  import opened Text

  /** An argument as `isinstance(x, str)` sees it: a string, or a value of some other type. */
  datatype Value = Str(s: string) | Other

  /** The parameter whose type check failed. */
  datatype Param = NameParam | SurnameParam | GenderParam

  /** The exception a constructor raises. */
  datatype InitError = TypeError(param: Param) | ValueError

  /** What the argument checks of a constructor decide. */
  datatype Outcome = Pass | Fail(error: InitError)

  /** A constructor call: the new object, or the exception raised instead. */
  datatype Result<T> = Ok(value: T) | Err(error: InitError)

  /** Upper-case Cyrillic EM and ZHE, the two accepted gender codes. */
  const Male: string := "\U{41C}"
  const Female: string := "\U{416}"

  /** The list the normalised gender is looked up in. */
  const GenderCodes: seq<string> := [Male, Female]

  /** `name.strip().title()` */
  function NormalName(s: string): (r: string)
    ensures |r| <= |s|
  {
    Title(Strip(s))
  }

  /** `gender.strip().upper()` */
  function NormalGender(g: string): (r: string)
    ensures |r| <= |g|
  {
    Upper(Strip(g))
  }

  /** A stored name: already in the form `strip().title()` produces. */
  ghost predicate IsNormalName(s: string) {
    Strip(s) == s && IsTitled(s)
  }

  /** The checks at the head of `Mentor.__init__`, in source order. */
  function MentorInitCheck(name: Value, surname: Value): Outcome {
    if !name.Str? then Fail(TypeError(NameParam))
    else if !surname.Str? then Fail(TypeError(SurnameParam))
    else Pass
  }

  /** The checks at the head of `Student.__init__`, in source order. */
  function StudentInitCheck(name: Value, surname: Value, gender: Value): Outcome {
    if !name.Str? then Fail(TypeError(NameParam))
    else if !surname.Str? then Fail(TypeError(SurnameParam))
    else if !gender.Str? then Fail(TypeError(GenderParam))
    else if NormalGender(gender.s) !in GenderCodes then Fail(ValueError)
    else Pass
  }

  // ---------------------------------------------------------------------
  // Properties of the normalisation

  /** `strip().title()` leaves a string that is stripped and title-cased. */
  lemma NormalNameIsNormal(s: string)
    ensures IsNormalName(NormalName(s))
  {
    var t := Strip(s);
    StripIsTrimmed(s);
    var i, j :| TrimmedAt(s, i, j) && t == s[i..j];
    TitleKeepsSpaces(t);
    var n := Title(t);
    assert TrimmedAt(n, 0, |n|) by {
      if 0 < |n| {
        assert t[0] == s[i] && t[|t| - 1] == s[j - 1];
        assert IsSpace(n[0]) == IsSpace(t[0]) && IsSpace(n[|n| - 1]) == IsSpace(t[|t| - 1]);
      }
    }
    TrimmedIsStrip(n, 0, |n|);
    TitleIsTitled(t);
  }

  /** Normalising a stored name again changes nothing. */
  lemma NormalNameIdempotent(s: string)
    ensures NormalName(NormalName(s)) == NormalName(s)
  {
    NormalNameIsNormal(s);
    TitleIdempotent(Strip(s));
  }

  /** `strip().upper()` leaves a string that both operations keep as it is. */
  lemma NormalGenderIdempotent(g: string)
    ensures NormalGender(NormalGender(g)) == NormalGender(g)
  {
    var t := Strip(g);
    StripIsTrimmed(g);
    var i, j :| TrimmedAt(g, i, j) && t == g[i..j];
    UpperAt(t);
    var u := Upper(t);
    assert TrimmedAt(u, 0, |u|) by {
      if 0 < |u| {
        assert t[0] == g[i] && t[|t| - 1] == g[j - 1];
      }
    }
    TrimmedIsStrip(u, 0, |u|);
    UpperIdempotent(t);
  }

  /**
    The gender check in terms of the raw argument: after stripping it must
    be one Cyrillic letter EM or ZHE, in either case.
   */
  lemma GenderAcceptedIff(g: string)
    ensures NormalGender(g) in GenderCodes <==> Strip(g) in {"\U{41C}", "\U{43C}", "\U{416}", "\U{436}"}
  {
    UpperIsLetter(Strip(g), '\U{41C}');
    UpperIsLetter(Strip(g), '\U{416}');
  }

  // ---------------------------------------------------------------------
  // Properties of the argument checks

  /**
    A non-string argument always raises `TypeError`, never `ValueError`,
    and the first non-string argument in the order name, surname, gender
    is the one reported.
   */
  lemma StudentTypeChecksFirst(name: Value, surname: Value, gender: Value)
    ensures !name.Str? ==> StudentInitCheck(name, surname, gender) == Fail(TypeError(NameParam))
    ensures name.Str? && !surname.Str? ==> StudentInitCheck(name, surname, gender) == Fail(TypeError(SurnameParam))
    ensures name.Str? && surname.Str? && !gender.Str? ==> StudentInitCheck(name, surname, gender) == Fail(TypeError(GenderParam))
    ensures StudentInitCheck(name, surname, gender) == Fail(ValueError) ==> name.Str? && surname.Str? && gender.Str?
  {
  }

  /**
    `Student(...)` raises `ValueError` exactly when all three arguments are
    strings and the stripped gender is not one of the four accepted letters.
   */
  lemma StudentValueErrorIff(name: Value, surname: Value, gender: Value)
    ensures StudentInitCheck(name, surname, gender) == Fail(ValueError) <==>
      name.Str? && surname.Str? && gender.Str?
      && Strip(gender.s) !in {"\U{41C}", "\U{43C}", "\U{416}", "\U{436}"}
  {
    if gender.Str? { GenderAcceptedIff(gender.s); }
  }

  /** `Student(...)` succeeds exactly when all arguments are strings and the gender is accepted. */
  lemma StudentPassIff(name: Value, surname: Value, gender: Value)
    ensures StudentInitCheck(name, surname, gender) == Pass <==>
      name.Str? && surname.Str? && gender.Str?
      && Strip(gender.s) in {"\U{41C}", "\U{43C}", "\U{416}", "\U{436}"}
  {
    if gender.Str? { GenderAcceptedIff(gender.s); }
  }

  /**
    `Mentor(...)` raises nothing exactly when both arguments are strings;
    otherwise it raises `TypeError` for the first non-string of name and
    surname, and it never raises `ValueError`.
   */
  lemma MentorPassIff(name: Value, surname: Value)
    ensures MentorInitCheck(name, surname) == Pass <==> name.Str? && surname.Str?
    ensures !name.Str? ==> MentorInitCheck(name, surname) == Fail(TypeError(NameParam))
    ensures name.Str? && !surname.Str? ==> MentorInitCheck(name, surname) == Fail(TypeError(SurnameParam))
    ensures MentorInitCheck(name, surname) != Fail(ValueError)
  {
  }

  /** A name with a Latin-1 letter is title-cased as Python does it. */
  lemma NormalNameLatinExample()
    ensures NormalName(" \U{E9}lise ") == "\U{C9}lise"
  {
    var s := " \U{E9}lise ";
    assert Strip(s) == "\U{E9}lise" by {
      TrimmedIsStrip(s, 1, 6);
    }
    var t := "\U{E9}lise";
    TitleAt(t);
    var n := Title(t);
    assert n[0] == '\U{C9}' && n[1] == 'l' && n[2] == 'i' && n[3] == 's' && n[4] == 'e';
    assert n == "\U{C9}lise";
  }

  /**
    The name checks of `Student.__init__` are those of `Mentor.__init__`:
    a student's names are rejected exactly when a mentor's would be, with
    the same error, and arguments that build a student also build a mentor.
   */
  lemma StudentChecksNamesAsMentor(name: Value, surname: Value, gender: Value)
    ensures MentorInitCheck(name, surname).Fail? ==> StudentInitCheck(name, surname, gender) == MentorInitCheck(name, surname)
    ensures StudentInitCheck(name, surname, gender) == Pass ==> MentorInitCheck(name, surname) == Pass
  {
  }

  // ---------------------------------------------------------------------
  // The classes

  class Student {
    /** `_name`, `_surname`, `_gender`: set once by the constructor, no setter. */
    const name: string
    const surname: string
    const gender: string
    var finishedCourses: seq<string>
    var coursesInProgress: seq<string>
    var grades: map<string, seq<int>>

    /** What every constructed student keeps: normalised names and an accepted gender code. */
    ghost predicate Valid() {
      IsNormalName(name) && IsNormalName(surname) && gender in GenderCodes
    }

    /** The assignments of `Student.__init__`, once its checks have passed. */
    constructor (rawName: string, rawSurname: string, rawGender: string)
      requires NormalGender(rawGender) in GenderCodes
      ensures Valid()
      ensures name == NormalName(rawName) && surname == NormalName(rawSurname)
      ensures gender == NormalGender(rawGender)
      ensures finishedCourses == [] && coursesInProgress == [] && grades == map[]
    {
      name := NormalName(rawName);
      surname := NormalName(rawSurname);
      gender := NormalGender(rawGender);
      finishedCourses := [];
      coursesInProgress := [];
      grades := map[];
      NormalNameIsNormal(rawName);
      NormalNameIsNormal(rawSurname);
    }

    /** `Student(name, surname, gender)`: the checks, then the assignments. */
    static method Create(name: Value, surname: Value, gender: Value) returns (r: Result<Student>)
      ensures r.Err? <==> StudentInitCheck(name, surname, gender).Fail?
      ensures r.Err? ==> r.error == StudentInitCheck(name, surname, gender).error
      ensures r.Ok? ==> fresh(r.value) && r.value.Valid()
      ensures r.Ok? ==> r.value.name == NormalName(name.s) && r.value.surname == NormalName(surname.s)
      ensures r.Ok? ==> r.value.gender == NormalGender(gender.s)
      ensures r.Ok? ==> r.value.finishedCourses == [] && r.value.coursesInProgress == [] && r.value.grades == map[]
    {
      if !name.Str? {
        return Err(TypeError(NameParam));
      }
      if !surname.Str? {
        return Err(TypeError(SurnameParam));
      }
      if !gender.Str? {
        return Err(TypeError(GenderParam));
      }
      if NormalGender(gender.s) !in GenderCodes {
        return Err(ValueError);
      }
      var student := new Student(name.s, surname.s, gender.s);
      return Ok(student);
    }

    /** The `name` property. */
    function Name(): (r: string)
      requires Valid()
      ensures r == name && IsNormalName(r)
    {
      name
    }

    /** The `surname` property. */
    function Surname(): (r: string)
      requires Valid()
      ensures r == surname && IsNormalName(r)
    {
      surname
    }

    /** The `gender` property. */
    function Gender(): (r: string)
      requires Valid()
      ensures r == gender && (r == Male || r == Female)
    {
      gender
    }
  }

  class Mentor {
    /** `_name`, `_surname`: set once by the constructor, no setter. */
    const name: string
    const surname: string
    var coursesAttached: seq<string>

    /** What every constructed mentor keeps: normalised names. */
    ghost predicate Valid() {
      IsNormalName(name) && IsNormalName(surname)
    }

    /** The assignments of `Mentor.__init__`, once its checks have passed. */
    constructor (rawName: string, rawSurname: string)
      ensures Valid()
      ensures name == NormalName(rawName) && surname == NormalName(rawSurname)
      ensures coursesAttached == []
    {
      name := NormalName(rawName);
      surname := NormalName(rawSurname);
      coursesAttached := [];
      NormalNameIsNormal(rawName);
      NormalNameIsNormal(rawSurname);
    }

    /** `Mentor(name, surname)`: the checks, then the assignments. */
    static method Create(name: Value, surname: Value) returns (r: Result<Mentor>)
      ensures r.Err? <==> MentorInitCheck(name, surname).Fail?
      ensures r.Err? ==> r.error == MentorInitCheck(name, surname).error
      ensures r.Ok? ==> fresh(r.value) && r.value.Valid()
      ensures r.Ok? ==> r.value.name == NormalName(name.s) && r.value.surname == NormalName(surname.s)
      ensures r.Ok? ==> r.value.coursesAttached == []
    {
      if !name.Str? {
        return Err(TypeError(NameParam));
      }
      if !surname.Str? {
        return Err(TypeError(SurnameParam));
      }
      var mentor := new Mentor(name.s, surname.s);
      return Ok(mentor);
    }

    /** The `name` property. */
    function Name(): (r: string)
      requires Valid()
      ensures r == name && IsNormalName(r)
    {
      name
    }

    /** The `surname` property. */
    function Surname(): (r: string)
      requires Valid()
      ensures r == surname && IsNormalName(r)
    {
      surname
    }
  }

  /** A `Mentor` subclass that receives grades; `mentor` is the inherited part. */
  class Lecturer {
    const mentor: Mentor
    var grades: map<string, seq<int>>

    /** The line `Lecturer.__init__` adds after `super().__init__`. */
    constructor (mentor: Mentor)
      ensures this.mentor == mentor && grades == map[]
    {
      this.mentor := mentor;
      grades := map[];
    }

    /** `Lecturer(name, surname)`: `Mentor.__init__`, whose exception propagates, then an empty `grades`. */
    static method Create(name: Value, surname: Value) returns (r: Result<Lecturer>)
      ensures r.Err? <==> MentorInitCheck(name, surname).Fail?
      ensures r.Err? ==> r.error == MentorInitCheck(name, surname).error
      ensures r.Ok? ==> fresh(r.value) && fresh(r.value.mentor) && r.value.mentor.Valid()
      ensures r.Ok? ==> r.value.mentor.name == NormalName(name.s) && r.value.mentor.surname == NormalName(surname.s)
      ensures r.Ok? ==> r.value.mentor.coursesAttached == [] && r.value.grades == map[]
    {
      var base := Mentor.Create(name, surname);
      if base.Err? {
        return Err(base.error);
      }
      var lecturer := new Lecturer(base.value);
      return Ok(lecturer);
    }
  }

  /** A `Mentor` subclass with nothing of its own; `mentor` is the inherited part. */
  class Reviewer {
    const mentor: Mentor

    constructor (mentor: Mentor)
      ensures this.mentor == mentor
    {
      this.mentor := mentor;
    }

    /** `Reviewer(name, surname)`: `Mentor.__init__` and nothing more. */
    static method Create(name: Value, surname: Value) returns (r: Result<Reviewer>)
      ensures r.Err? <==> MentorInitCheck(name, surname).Fail?
      ensures r.Err? ==> r.error == MentorInitCheck(name, surname).error
      ensures r.Ok? ==> fresh(r.value) && fresh(r.value.mentor) && r.value.mentor.Valid()
      ensures r.Ok? ==> r.value.mentor.name == NormalName(name.s) && r.value.mentor.surname == NormalName(surname.s)
      ensures r.Ok? ==> r.value.mentor.coursesAttached == []
    {
      var base := Mentor.Create(name, surname);
      if base.Err? {
        return Err(base.error);
      }
      var reviewer := new Reviewer(base.value);
      return Ok(reviewer);
    }
  }

  /**
    A caller of the constructors: the demo's lecturer Иван Иванов and
    reviewer Пётр Петров are both mentors whose attached courses start empty.
   */
  method InheritanceScenario() {
    var lecturer := Lecturer.Create(Str("\U{418}\U{432}\U{430}\U{43D}"), Str("\U{418}\U{432}\U{430}\U{43D}\U{43E}\U{432}"));
    var reviewer := Reviewer.Create(Str("\U{41F}\U{451}\U{442}\U{440}"), Str("\U{41F}\U{435}\U{442}\U{440}\U{43E}\U{432}"));
    assert lecturer.Ok? && reviewer.Ok?;
    assert lecturer.value.mentor.coursesAttached == [];
    assert reviewer.value.mentor.coursesAttached == [];
  }

  /** A caller of the student constructor: a padded lower-case ZHE is accepted and stored as `Female`. */
  method GenderScenario() {
    var g := " \U{436} ";
    assert Strip(g) == "\U{436}" by {
      TrimmedIsStrip(g, 1, 2);
    }
    StudentPassIff(Str("ann"), Str("lee"), Str(g));
    var student := Student.Create(Str("ann"), Str("lee"), Str(g));
    assert student.Ok?;
    assert student.value.Gender() == Female;
  }
}
