/** Class, field and code locations, and the two notations of a class name:
    the dotted form `a.b.MyClass` used in reports and by `Class.getName()`,
    and the slash-separated (JVM internal) form `a/b/MyClass` found in bytecode. */
module Locations {

  /** The dotted form of a class name: every '/' becomes '.'. */
  function ToDotted(s: string): (r: string)
  {
    seq(|s|, i requires 0 <= i < |s| => if s[i] == '/' then '.' else s[i])
  }

  /** The slashed form of a class name: every '.' becomes '/'. */
  function ToSlashed(s: string): (r: string)
  {
    seq(|s|, i requires 0 <= i < |s| => if s[i] == '.' then '/' else s[i])
  }

  /** A class name known to be in dotted form (`Dotted.dotted`). */
  datatype Dotted = Dotted(name: string)

  /** A class name known to be in slashed form (`Slashed.slashed`). */
  datatype Slashed = Slashed(name: string)

  function DottedOf(className: string): (d: Dotted)
    ensures '/' !in d.name && |d.name| == |className|
  {
    Dotted(ToDotted(className))
  }

  function SlashedOf(className: string): (s: Slashed)
    ensures '.' !in s.name && |s.name| == |className|
  {
    Slashed(ToSlashed(className))
  }

  /** A class, identified by its dotted name. */
  datatype ClassLocation = ClassLocation(typeName: string)

  /** `ClassLocation.fromSlashed` */
  function FromSlashed(s: Slashed): (c: ClassLocation)
    ensures '/' !in c.typeName
  {
    ClassLocation(ToDotted(s.name))
  }

  /** `ClassLocation.fromInternalName`: a bytecode (slashed) name, normalised to dotted form. */
  function FromInternalName(internalName: string): (c: ClassLocation)
    ensures '/' !in c.typeName
  {
    ClassLocation(ToDotted(internalName))
  }

  /** A field of a class. */
  datatype FieldLocation = FieldLocation(fieldName: string, ownerOfField: ClassLocation)

  /** Where a reason points: at a whole class or at one of its fields. */
  datatype CodeLocation = ClassCode(classLocation: ClassLocation) | FieldCode(fieldLocation: FieldLocation)

  /** The human-readable form of a location used in verbose reports. */
  function PrettyPrint(loc: CodeLocation): (s: string)
  {
    match loc
    case ClassCode(c) => "[Class: " + c.typeName + "]"
    case FieldCode(f) => "[Field: " + f.fieldName + ", Class: " + f.ownerOfField.typeName + "]"
  }

  // ----- properties of the name conversions -----

  /** Converting to dotted form leaves no slash and changes no other character. */
  lemma DottedFormChangesOnlySlashes(s: string)
    ensures |ToDotted(s)| == |s| && '/' !in ToDotted(s)
    ensures forall i :: 0 <= i < |s| && s[i] != '/' ==> ToDotted(s)[i] == s[i]
    ensures forall i :: 0 <= i < |s| && s[i] == '/' ==> ToDotted(s)[i] == '.'
  {
  }

  /** A name already in dotted form is left as it is, so `dotted` is idempotent. */
  lemma DottedOfDottedName(s: string)
    requires '/' !in s
    ensures ToDotted(s) == s
    ensures ToDotted(ToDotted(s)) == ToDotted(s)
  {
  }

  /** Dotted -> slashed -> dotted gives back the dotted name. */
  lemma DottedSlashedRoundTrip(d: string)
    requires '/' !in d
    ensures ToDotted(ToSlashed(d)) == d
    ensures FromSlashed(SlashedOf(d)) == ClassLocation(d)
  {
  }

  /** Slashed -> dotted -> slashed gives back the slashed name. */
  lemma SlashedDottedRoundTrip(s: string)
    requires '.' !in s
    ensures ToSlashed(ToDotted(s)) == s
  {
  }

  /** `fromSlashed` and `fromInternalName` agree: one class location whichever notation it came from. */
  lemma SameLocationFromEitherNotation(internalName: string)
    ensures FromSlashed(SlashedOf(internalName)) == FromInternalName(internalName)
  {
  }

  // ----- properties of pretty printing -----

  /** A printed location holds a line break only if one of its names does. */
  lemma PrettyPrintSingleLine(loc: CodeLocation)
    requires loc.ClassCode? ==> '\n' !in loc.classLocation.typeName
    requires loc.FieldCode? ==> '\n' !in loc.fieldLocation.fieldName && '\n' !in loc.fieldLocation.ownerOfField.typeName
    ensures '\n' !in PrettyPrint(loc)
  {
  }

  /** In a printed field location the field name ends at the first comma after `[Field: `. */
  lemma FieldNameEndsAtComma(f: FieldLocation)
    requires ',' !in f.fieldName
    ensures var p := PrettyPrint(FieldCode(f));
      8 + |f.fieldName| < |p| && p[8 + |f.fieldName|] == ',' &&
      forall i :: 8 <= i < 8 + |f.fieldName| ==> p[i] != ','
  {
    var p := PrettyPrint(FieldCode(f));
    forall i | 8 <= i < 8 + |f.fieldName| ensures p[i] != ',' {
      assert p[i] == f.fieldName[i - 8];
    }
  }

  /** The printed location determines the location, provided field names hold no comma. */
  lemma {:induction false} PrettyPrintInjective(a: CodeLocation, b: CodeLocation)
    requires a.FieldCode? ==> ',' !in a.fieldLocation.fieldName
    requires b.FieldCode? ==> ',' !in b.fieldLocation.fieldName
    requires PrettyPrint(a) == PrettyPrint(b)
    ensures a == b
  {
    var p := PrettyPrint(a);
    assert p[1] == (if a.ClassCode? then 'C' else 'F');
    assert p[1] == (if b.ClassCode? then 'C' else 'F');
    if a.ClassCode? {
      assert a.classLocation.typeName == p[8..|p| - 1] == b.classLocation.typeName;
    } else {
      var fa, fb := a.fieldLocation, b.fieldLocation;
      FieldNameEndsAtComma(fa);
      FieldNameEndsAtComma(fb);
      assert |fa.fieldName| == |fb.fieldName|;
      var n := |fa.fieldName|;
      assert fa.fieldName == p[8..8 + n] == fb.fieldName;
      assert fa.ownerOfField.typeName == p[8 + n + 9..|p| - 1] == fb.ownerOfField.typeName;
    }
  }

  /** The test's slashed class names and their dotted forms. */
  lemma TestClassNamesDotted()
    ensures ToSlashed("path/to/MyClass") == "path/to/MyClass"
    ensures ToDotted("path/to/MyClass") == "path.to.MyClass"
    ensures ToDotted("path/to/OtherClass") == "path.to.OtherClass"
  {
    var s0, d0 := "path/to/MyClass", "path.to.MyClass";
    forall i | 0 <= i < |s0| ensures ToSlashed(s0)[i] == s0[i] {}
    forall i | 0 <= i < |s0| ensures ToDotted(s0)[i] == d0[i] {}
    var s1, d1 := "path/to/OtherClass", "path.to.OtherClass";
    forall i | 0 <= i < |s1| ensures ToDotted(s1)[i] == d1[i] {}
  }

  lemma PrintedTestClassText()
    ensures "[Class: " + "path.to.MyClass" + "]" == "[Class: path.to.MyClass]"
  {
  }

  lemma PrintedTestFieldText()
    ensures "[Field: " + "myField" + ", Class: " + "path.to.OtherClass" + "]" == "[Field: myField, Class: path.to.OtherClass]"
  {
    assert "[Field: " + "myField" == "[Field: myField";
    assert "[Field: myField" + ", Class: " == "[Field: myField, Class: ";
    assert "[Field: myField, Class: " + "path.to.OtherClass" == "[Field: myField, Class: path.to.OtherClass";
  }

  /** The class location of the verbose-output test, printed with a dotted class name. */
  lemma PrettyPrintedTestClassLocation()
    ensures PrettyPrint(ClassCode(FromSlashed(SlashedOf("path/to/MyClass")))) == "[Class: path.to.MyClass]"
  {
    TestClassNamesDotted();
    PrintedTestClassText();
    assert FromSlashed(SlashedOf("path/to/MyClass")) == ClassLocation("path.to.MyClass");
  }

  /** The field location of the verbose-output test, printed with a dotted owner class. */
  lemma PrettyPrintedTestFieldLocation()
    ensures PrettyPrint(FieldCode(FieldLocation("myField", FromInternalName("path/to/OtherClass"))))
            == "[Field: myField, Class: path.to.OtherClass]"
  {
    TestClassNamesDotted();
    PrintedTestFieldText();
    assert FromInternalName("path/to/OtherClass") == ClassLocation("path.to.OtherClass");
  }
}
