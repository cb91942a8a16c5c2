/**
 * sys::Assets: the lists of fonts and vector-icon files found in the
 * asset directories, and the lookups over them.
 *
 * The source keeps the lists in static members; here they are the fields
 * of one `Assets` object. What lies outside this file is given by an
 * `Environment`: the directory listing (with each file's suffix), the
 * metadata a font file name carries, the icon names inside an icon file,
 * the sort of the font list, and the value of the ICONS style.
 */
module AssetLists {
  import opened Wrappers

  /** One entry of a directory listing: the file name and its suffix. */
  datatype FileEntry = FileEntry(name: string, suffix: string)

  /** What a font file name tells: the font's name, style and point size. */
  datatype FontMeta = FontMeta(name: string, style: nat, pointSize: nat)

  /** A font list entry; `loaded` is true once its font has been opened. */
  datatype FontInfo = FontInfo(path: string, name: string, style: nat, pointSize: nat, loaded: bool)

  /** An icon file: its path and the names of the vector paths it holds, in order. */
  datatype Svic = Svic(path: string, names: seq<string>)

  /** The vector path at position `index` of icon file `file`, or the empty path. */
  datatype VectorPath = NoPath | Path(file: nat, index: nat)

  datatype Environment = Environment(
    readList: string -> seq<FileEntry>,
    fontOf: string -> FontMeta,
    namesOf: string -> seq<string>,
    sortFonts: seq<FontInfo> -> seq<FontInfo>,
    iconsStyle: nat)

  predicate SortedByPointSize(fonts: seq<FontInfo>)
  {
    forall i, j :: 0 <= i < j < |fonts| ==> fonts[i].pointSize <= fonts[j].pointSize
  }

  /**
   * The font list is sorted by style and then by point size; the sort
   * itself is not part of this model, only that it permutes the list and
   * leaves it in ascending point size.
   */
  ghost predicate SortsFonts(sort: seq<FontInfo> -> seq<FontInfo>)
  {
    forall s :: multiset(sort(s)) == multiset(s) && SortedByPointSize(sort(s))
  }

  function Join(dir: string, name: string): string { dir + "/" + name }

  function MakeFont(path: string, meta: FontMeta): FontInfo
  {
    FontInfo(path, meta.name, meta.style, meta.pointSize, false)
  }

  /** The fonts a listing of `dir` contributes: one per "sbf" file, in listing order. */
  function FontsIn(env: Environment, dir: string, list: seq<FileEntry>): seq<FontInfo>
  {
    if list == [] then []
    else
      var e := list[|list| - 1];
      FontsIn(env, dir, list[..|list| - 1])
      + (if e.suffix == "sbf" then [MakeFont(Join(dir, e.name), env.fontOf(Join(dir, e.name)))] else [])
  }

  /** The icon files a listing of `dir` contributes: one per "svic" file, in listing order. */
  function IconsIn(env: Environment, dir: string, list: seq<FileEntry>): seq<Svic>
  {
    if list == [] then []
    else
      var e := list[|list| - 1];
      IconsIn(env, dir, list[..|list| - 1])
      + (if e.suffix == "svic" then [Svic(Join(dir, e.name), env.namesOf(Join(dir, e.name)))] else [])
  }

  /** Exactly the "sbf" files of the listing become fonts, with path dir + "/" + file name. */
  lemma {:induction false} FontsInFromSbf(env: Environment, dir: string, list: seq<FileEntry>)
    ensures forall f :: f in FontsIn(env, dir, list) ==>
              exists e :: e in list && e.suffix == "sbf" && f.path == Join(dir, e.name) && !f.loaded
    ensures forall e :: e in list && e.suffix == "sbf" ==>
              MakeFont(Join(dir, e.name), env.fontOf(Join(dir, e.name))) in FontsIn(env, dir, list)
  {
    if list != [] {
      var init := list[..|list| - 1];
      FontsInFromSbf(env, dir, init);
      assert list == init + [list[|list| - 1]];
      forall f | f in FontsIn(env, dir, list)
        ensures exists e :: e in list && e.suffix == "sbf" && f.path == Join(dir, e.name) && !f.loaded
      {
        if f in FontsIn(env, dir, init) {
          var e :| e in init && e.suffix == "sbf" && f.path == Join(dir, e.name) && !f.loaded;
          assert e in list;
        } else {
          assert list[|list| - 1] in list;
        }
      }
    }
  }

  /** Exactly the "svic" files of the listing become icon files. */
  lemma {:induction false} IconsInFromSvic(env: Environment, dir: string, list: seq<FileEntry>)
    ensures forall v :: v in IconsIn(env, dir, list) ==>
              exists e :: e in list && e.suffix == "svic" && v.path == Join(dir, e.name)
    ensures forall e :: e in list && e.suffix == "svic" ==>
              Svic(Join(dir, e.name), env.namesOf(Join(dir, e.name))) in IconsIn(env, dir, list)
  {
    if list != [] {
      var init := list[..|list| - 1];
      IconsInFromSvic(env, dir, init);
      assert list == init + [list[|list| - 1]];
      forall v | v in IconsIn(env, dir, list)
        ensures exists e :: e in list && e.suffix == "svic" && v.path == Join(dir, e.name)
      {
        if v in IconsIn(env, dir, init) {
          var e :| e in init && e.suffix == "svic" && v.path == Join(dir, e.name);
          assert e in list;
        } else {
          assert list[|list| - 1] in list;
        }
      }
    }
  }

  /** The fonts found by the three directory scans of initialize(). */
  function ScannedFonts(env: Environment): seq<FontInfo>
  {
    FontsIn(env, "/assets", env.readList("/assets"))
    + FontsIn(env, "/home", env.readList("/home"))
    + FontsIn(env, "/home/assets", env.readList("/home/assets"))
  }

  function ScannedIcons(env: Environment): seq<Svic>
  {
    IconsIn(env, "/assets", env.readList("/assets"))
    + IconsIn(env, "/home", env.readList("/home"))
    + IconsIn(env, "/home/assets", env.readList("/home/assets"))
  }

  /** Whether a font belongs to the requested class: ICONS and non-ICONS are kept apart. */
  predicate SameClass(iconsStyle: nat, style: nat, f: FontInfo)
  {
    (style == iconsStyle) == (f.style == iconsStyle)
  }

  /** The exact-match condition: same style and point size, and the same name unless none was asked for. */
  predicate Exact(f: FontInfo, pointSize: nat, style: nat, name: string)
  {
    f.style == style && f.pointSize == pointSize && (f.name == name || name == "")
  }

  /** The first same-class exact match at or after position i. */
  function FirstExact(fonts: seq<FontInfo>, i: nat, iconsStyle: nat, pointSize: nat, style: nat, name: string): (r: Option<nat>)
    decreases |fonts| - i
  {
    if i >= |fonts| then None
    else if SameClass(iconsStyle, style, fonts[i]) && Exact(fonts[i], pointSize, style, name) then Some(i)
    else FirstExact(fonts, i + 1, iconsStyle, pointSize, style, name)
  }

  /** The pair (closest point size, closest style) after scanning fonts[..k]. */
  function Closest(fonts: seq<FontInfo>, k: nat, iconsStyle: nat, pointSize: nat, style: nat): (c: (nat, nat))
    requires k <= |fonts|
    ensures c.0 <= pointSize && c.1 <= style
  {
    if k == 0 then (0, 0)
    else
      var c := Closest(fonts, k - 1, iconsStyle, pointSize, style);
      var f := fonts[k - 1];
      if SameClass(iconsStyle, style, f) && f.pointSize <= pointSize then
        (f.pointSize, if f.style <= style then f.style else c.1)
      else c
  }

  /** The first same-class entry with the given point size and style. */
  function FirstWith(fonts: seq<FontInfo>, i: nat, iconsStyle: nat, style: nat, size: nat, st: nat): (r: Option<nat>)
    decreases |fonts| - i
  {
    if i >= |fonts| then None
    else if SameClass(iconsStyle, style, fonts[i]) && fonts[i].pointSize == size && fonts[i].style == st then Some(i)
    else FirstWith(fonts, i + 1, iconsStyle, style, size, st)
  }

  /** find_font as a rule: exact match first, else nothing or the closest fallback. */
  function FindFontRule(fonts: seq<FontInfo>, iconsStyle: nat, pointSize: nat, style: nat, name: string, exactOnly: bool): Option<nat>
  {
    var exact := FirstExact(fonts, 0, iconsStyle, pointSize, style, name);
    if exact.Some? then exact
    else if exactOnly then None
    else
      var c := Closest(fonts, |fonts|, iconsStyle, pointSize, style);
      FirstWith(fonts, 0, iconsStyle, style, c.0, c.1)
  }

  lemma {:induction false} FirstExactFacts(fonts: seq<FontInfo>, i: nat, iconsStyle: nat, pointSize: nat, style: nat, name: string)
    ensures var r := FirstExact(fonts, i, iconsStyle, pointSize, style, name);
            (r.Some? ==> i <= r.value < |fonts| && SameClass(iconsStyle, style, fonts[r.value])
                         && Exact(fonts[r.value], pointSize, style, name)
                         && forall j :: i <= j < r.value ==> !(SameClass(iconsStyle, style, fonts[j]) && Exact(fonts[j], pointSize, style, name)))
            && (r.None? ==> forall j :: i <= j < |fonts| ==> !(SameClass(iconsStyle, style, fonts[j]) && Exact(fonts[j], pointSize, style, name)))
    decreases |fonts| - i
  {
    if i < |fonts| && !(SameClass(iconsStyle, style, fonts[i]) && Exact(fonts[i], pointSize, style, name)) {
      FirstExactFacts(fonts, i + 1, iconsStyle, pointSize, style, name);
    }
  }

  lemma {:induction false} FirstWithFacts(fonts: seq<FontInfo>, i: nat, iconsStyle: nat, style: nat, size: nat, st: nat)
    ensures var r := FirstWith(fonts, i, iconsStyle, style, size, st);
            (r.Some? ==> i <= r.value < |fonts| && SameClass(iconsStyle, style, fonts[r.value])
                         && fonts[r.value].pointSize == size && fonts[r.value].style == st)
            && (r.None? ==> forall j :: i <= j < |fonts| ==>
                  !(SameClass(iconsStyle, style, fonts[j]) && fonts[j].pointSize == size && fonts[j].style == st))
    decreases |fonts| - i
  {
    if i < |fonts| && !(SameClass(iconsStyle, style, fonts[i]) && fonts[i].pointSize == size && fonts[i].style == st) {
      FirstWithFacts(fonts, i + 1, iconsStyle, style, size, st);
    }
  }

  /** A font found is always of the requested class, ICONS or not. */
  lemma FindFontSameClass(fonts: seq<FontInfo>, iconsStyle: nat, pointSize: nat, style: nat, name: string, exactOnly: bool)
    ensures var r := FindFontRule(fonts, iconsStyle, pointSize, style, name, exactOnly);
            r.Some? ==> r.value < |fonts| && SameClass(iconsStyle, style, fonts[r.value])
  {
    FirstExactFacts(fonts, 0, iconsStyle, pointSize, style, name);
    var c := Closest(fonts, |fonts|, iconsStyle, pointSize, style);
    FirstWithFacts(fonts, 0, iconsStyle, style, c.0, c.1);
  }

  /** When an exact match exists, the first one in list order is returned, whatever the flag. */
  lemma FindFontExactFirst(fonts: seq<FontInfo>, iconsStyle: nat, pointSize: nat, style: nat, name: string, exactOnly: bool, k: nat)
    requires k < |fonts| && SameClass(iconsStyle, style, fonts[k]) && Exact(fonts[k], pointSize, style, name)
    ensures var r := FindFontRule(fonts, iconsStyle, pointSize, style, name, exactOnly);
            r.Some? && r.value <= k && Exact(fonts[r.value], pointSize, style, name)
            && forall j :: 0 <= j < r.value ==> !(SameClass(iconsStyle, style, fonts[j]) && Exact(fonts[j], pointSize, style, name))
  {
    FirstExactFacts(fonts, 0, iconsStyle, pointSize, style, name);
  }

  /** With is_exact_match set, the result is either an exact match or nothing. */
  lemma FindFontExactOnly(fonts: seq<FontInfo>, iconsStyle: nat, pointSize: nat, style: nat, name: string)
    ensures var r := FindFontRule(fonts, iconsStyle, pointSize, style, name, true);
            (r.Some? ==> r.value < |fonts| && Exact(fonts[r.value], pointSize, style, name))
            && (r.None? ==> forall j :: 0 <= j < |fonts| ==> !(SameClass(iconsStyle, style, fonts[j]) && Exact(fonts[j], pointSize, style, name)))
  {
    FirstExactFacts(fonts, 0, iconsStyle, pointSize, style, name);
  }

  /** A fallback never has a larger point size or a larger style value than requested. */
  lemma FindFontFallbackNotLarger(fonts: seq<FontInfo>, iconsStyle: nat, pointSize: nat, style: nat, name: string)
    ensures var r := FindFontRule(fonts, iconsStyle, pointSize, style, name, false);
            r.Some? ==> r.value < |fonts| && fonts[r.value].pointSize <= pointSize && fonts[r.value].style <= style
  {
    FirstExactFacts(fonts, 0, iconsStyle, pointSize, style, name);
    var c := Closest(fonts, |fonts|, iconsStyle, pointSize, style);
    FirstWithFacts(fonts, 0, iconsStyle, style, c.0, c.1);
  }

  /** The font list with the loaded flags cleared: what the lookups depend on. */
  function Unloaded(fonts: seq<FontInfo>): (r: seq<FontInfo>)
    ensures |r| == |fonts|
    ensures forall i :: 0 <= i < |fonts| ==> r[i] == fonts[i].(loaded := false)
  {
    seq(|fonts|, i requires 0 <= i < |fonts| => fonts[i].(loaded := false))
  }

  /** The first (file, index) whose name is `name`, scanning files and then names in order. */
  predicate FirstPathAt(icons: seq<Svic>, name: string, i: nat, j: nat)
  {
    i < |icons| && j < |icons[i].names| && icons[i].names[j] == name
    && (forall a, b :: 0 <= a < i && 0 <= b < |icons[a].names| ==> icons[a].names[b] != name)
    && (forall b :: 0 <= b < j ==> icons[i].names[b] != name)
  }

  class Assets {
    var fonts: seq<FontInfo>
    var icons: seq<Svic>
    var initialized: bool
    const env: Environment

    ghost predicate Valid()
      reads this
    {
      SortsFonts(env.sortFonts)
    }

    /** The state before the first initialize(): both lists empty. */
    constructor (env: Environment)
      requires SortsFonts(env.sortFonts)
      ensures Valid() && this.env == env
      ensures fonts == [] && icons == [] && !initialized
    {
      this.env := env;
      fonts := [];
      icons := [];
      initialized := false;
    }

    /** find_fonts_in_directory(path): appends one font per "sbf" file of the listing. */
    method FindFontsInDirectory(path: string)
      modifies this
      ensures fonts == old(fonts) + FontsIn(env, path, env.readList(path))
      ensures icons == old(icons) && initialized == old(initialized)
    {
      var fileList := env.readList(path);
      var i := 0;
      while i < |fileList|
        invariant i <= |fileList|
        invariant fonts == old(fonts) + FontsIn(env, path, fileList[..i])
        invariant icons == old(icons) && initialized == old(initialized)
      {
        assert fileList[..i + 1][..i] == fileList[..i];
        if fileList[i].suffix == "sbf" {
          var fontPath := Join(path, fileList[i].name);
          var info := MakeFont(fontPath, env.fontOf(fontPath));
          fonts := fonts + [info];
        }
        i := i + 1;
      }
      assert fileList[..i] == fileList;
    }

    /** find_icons_in_directory(path): appends one icon file per "svic" file of the listing. */
    method FindIconsInDirectory(path: string)
      modifies this
      ensures icons == old(icons) + IconsIn(env, path, env.readList(path))
      ensures fonts == old(fonts) && initialized == old(initialized)
    {
      var fileList := env.readList(path);
      var i := 0;
      while i < |fileList|
        invariant i <= |fileList|
        invariant icons == old(icons) + IconsIn(env, path, fileList[..i])
        invariant fonts == old(fonts) && initialized == old(initialized)
      {
        assert fileList[..i + 1][..i] == fileList[..i];
        if fileList[i].suffix == "svic" {
          var iconPath := Join(path, fileList[i].name);
          icons := icons + [Svic(iconPath, env.namesOf(iconPath))];
        }
        i := i + 1;
      }
      assert fileList[..i] == fileList;
    }

    /** The three font scans of initialize(), in order. */
    method ScanFonts()
      modifies this
      ensures fonts == old(fonts) + ScannedFonts(env)
      ensures icons == old(icons) && initialized == old(initialized)
    {
      ghost var a := FontsIn(env, "/assets", env.readList("/assets"));
      ghost var b := FontsIn(env, "/home", env.readList("/home"));
      ghost var c := FontsIn(env, "/home/assets", env.readList("/home/assets"));
      FindFontsInDirectory("/assets");
      FindFontsInDirectory("/home");
      FindFontsInDirectory("/home/assets");
      assert old(fonts) + a + b + c == old(fonts) + (a + b + c);
    }

    /** The three icon scans of initialize(), in order. */
    method ScanIcons()
      modifies this
      ensures icons == old(icons) + ScannedIcons(env)
      ensures fonts == old(fonts) && initialized == old(initialized)
    {
      ghost var a := IconsIn(env, "/assets", env.readList("/assets"));
      ghost var b := IconsIn(env, "/home", env.readList("/home"));
      ghost var c := IconsIn(env, "/home/assets", env.readList("/home/assets"));
      FindIconsInDirectory("/assets");
      FindIconsInDirectory("/home");
      FindIconsInDirectory("/home/assets");
      assert old(icons) + a + b + c == old(icons) + (a + b + c);
    }

    /**
     * initialize(): the first call scans the three directories for fonts,
     * sorts them, scans them for icons and latches; later calls change
     * nothing. Always returns 0.
     */
    method Initialize() returns (r: int)
      requires Valid()
      modifies this
      ensures r == 0 && initialized
      ensures old(initialized) ==> fonts == old(fonts) && icons == old(icons)
      ensures !old(initialized) ==>
                fonts == env.sortFonts(old(fonts) + ScannedFonts(env))
                && icons == old(icons) + ScannedIcons(env)
      ensures !old(initialized) ==>
                multiset(fonts) == multiset(old(fonts) + ScannedFonts(env)) && SortedByPointSize(fonts)
    {
      if initialized {
        return 0;
      }
      ScanFonts();
      ghost var scanned := fonts;
      fonts := env.sortFonts(fonts);
      assert multiset(fonts) == multiset(scanned) && SortedByPointSize(fonts);
      ScanIcons();
      initialized := true;
      return 0;
    }

    /** The font list initialize() leaves from the current state. */
    ghost function InitializedFonts(): seq<FontInfo>
      reads this
    {
      if initialized then fonts else env.sortFonts(fonts + ScannedFonts(env))
    }

    /** The icon list initialize() leaves from the current state. */
    ghost function InitializedIcons(): seq<Svic>
      reads this
    {
      if initialized then icons else icons + ScannedIcons(env)
    }

    /**
     * find_font(point_size, style, name, is_exact_match): the index of the
     * font found, or None for a null result. The font found is marked
     * loaded; nothing else in the list changes.
     */
    method FindFont(pointSize: nat, style: nat, name: string, isExactMatch: bool) returns (r: Option<nat>)
      requires Valid()
      modifies this
      ensures initialized
      ensures Unloaded(fonts) == Unloaded(old(InitializedFonts()))
      ensures r == FindFontRule(old(InitializedFonts()), env.iconsStyle, pointSize, style, name, isExactMatch)
      ensures r.Some? ==> r.value < |fonts| && fonts[r.value].loaded
      ensures forall i :: 0 <= i < |fonts| && r != Some(i) ==> fonts[i] == old(InitializedFonts())[i]
      ensures icons == old(InitializedIcons())
    {
      var _ := Initialize();
      ghost var start := fonts;
      var iconsStyle := env.iconsStyle;
      var closestPointSize := 0;
      var closestStyle := 0;
      FirstExactFacts(fonts, 0, iconsStyle, pointSize, style, name);
      var i := 0;
      while i < |fonts|
        invariant i <= |fonts| && fonts == start
        invariant (closestPointSize, closestStyle) == Closest(fonts, i, iconsStyle, pointSize, style)
        invariant FirstExact(fonts, 0, iconsStyle, pointSize, style, name) == FirstExact(fonts, i, iconsStyle, pointSize, style, name)
      {
        var info := fonts[i];
        if SameClass(iconsStyle, style, info) {
          if info.pointSize <= pointSize {
            closestPointSize := info.pointSize;
            if info.style <= style {
              closestStyle := info.style;
            }
          }
          if info.style == style && info.pointSize == pointSize && (info.name == name || name == "") {
            MarkLoaded(i);
            return Some(i);
          }
        }
        i := i + 1;
      }

      if isExactMatch {
        return None;
      }

      i := 0;
      while i < |fonts|
        invariant i <= |fonts| && fonts == start
        invariant FirstWith(fonts, 0, iconsStyle, style, closestPointSize, closestStyle)
                  == FirstWith(fonts, i, iconsStyle, style, closestPointSize, closestStyle)
      {
        var info := fonts[i];
        if SameClass(iconsStyle, style, info) {
          if info.pointSize == closestPointSize && info.style == closestStyle {
            MarkLoaded(i);
            return Some(i);
          }
        }
        i := i + 1;
      }
      return None;
    }

    /** Marks the font at index i loaded, if it is not already. */
    method MarkLoaded(i: nat)
      requires i < |fonts|
      modifies this
      ensures fonts == old(fonts)[i := old(fonts)[i].(loaded := true)]
      ensures Unloaded(fonts) == Unloaded(old(fonts))
      ensures icons == old(icons) && initialized == old(initialized)
    {
      var info := fonts[i];
      if !info.loaded {
        fonts := fonts[i := info.(loaded := true)];
      } else {
        assert info.(loaded := true) == info;
      }
    }

    /**
     * find_vector_path(name): the first vector path named `name`, scanning
     * the icon files in order and each file's paths in order, or the empty
     * path.
     */
    method FindVectorPath(name: string) returns (r: VectorPath)
      requires Valid()
      modifies this
      ensures initialized
      ensures icons == old(InitializedIcons()) && fonts == old(InitializedFonts())
      ensures r.Path? ==> FirstPathAt(old(InitializedIcons()), name, r.file, r.index)
      ensures r.NoPath? ==>
                var all := old(InitializedIcons());
                forall a, b :: 0 <= a < |all| && 0 <= b < |all[a].names| ==> all[a].names[b] != name
    {
      var _ := Initialize();
      var i := 0;
      while i < |icons|
        invariant i <= |icons|
        invariant forall a, b :: 0 <= a < i && 0 <= b < |icons[a].names| ==> icons[a].names[b] != name
      {
        var j := 0;
        while j < |icons[i].names|
          invariant j <= |icons[i].names|
          invariant forall b :: 0 <= b < j ==> icons[i].names[b] != name
        {
          if icons[i].names[j] == name {
            return Path(i, j);
          }
          j := j + 1;
        }
        i := i + 1;
      }
      return NoPath;
    }
  }
}
