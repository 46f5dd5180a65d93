/** `FontManager`: a font file path and a point size, each validated before
    it is stored, and the font handle loaded from them. The file system is
    a value passed in, and the pygame font is an opaque handle that records
    the path and size it was loaded with. */
module Fonts {
  import opened PyBuiltins
  import opened Os

  /** What `pygame.font.Font(path, size)` returns, kept opaque. */
  datatype FontHandle = FontHandle(path: string, size: int)

  /** `font_path[-4:] in (".ttf", ".otf")`. It accepts exactly the paths of
      at least four characters whose last four are `.ttf` or `.otf`,
      compared case-sensitively: a shorter path is sliced to itself, which
      is never four characters long. */
  predicate HasFontSuffix(path: string): (ok: bool)
    ensures ok <==> |path| >= 4 && (path[|path| - 4..] == ".ttf" || path[|path| - 4..] == ".otf")
  {
    var ext := PySliceFrom(path, -4);
    ext == ".ttf" || ext == ".otf"
  }

  /** A bare `.ttf` passes the suffix test; an upper-case extension and a
      path shorter than the extension do not. */
  lemma FontSuffixExamples()
    ensures HasFontSuffix(".ttf") && HasFontSuffix("fonts/FiraSans-Regular.otf")
    ensures !HasFontSuffix("font.TTF") && !HasFontSuffix("ttf") && !HasFontSuffix("font.ttf ")
  {
  }

  /** `__validate_font_path`: the suffix is checked before existence, so a
      bad suffix raises ValueError even when the file exists, and a good
      suffix with no file behind it raises FileNotFoundError. */
  function ValidateFontPath(path: string, fs: FileSystem): (r: Outcome)
    ensures r == Pass <==> HasFontSuffix(path) && IsFile(fs, path)
    ensures !HasFontSuffix(path) ==> r == Fail(ValueError)
    ensures HasFontSuffix(path) && !IsFile(fs, path) ==> r == Fail(FileNotFoundError)
  {
    if !HasFontSuffix(path) then Fail(ValueError)
    else if !IsFile(fs, path) then Fail(FileNotFoundError)
    else Pass
  }

  /** `__validate_font_size`: only a positive size is accepted. */
  function ValidateFontSize(size: int): (r: Outcome)
    ensures r == Pass <==> size > 0
    ensures r != Pass ==> r == Fail(ValueError)
  {
    if !(0 < size) then Fail(ValueError) else Pass
  }

  class FontManager {
    var fontPath: string
    var fontSize: int
    var font: Option<FontHandle>

    /** A manager in use holds an accepted path and size and the font
        loaded from exactly those. */
    ghost predicate Valid()
      reads this
    {
      && HasFontSuffix(fontPath)
      && fontSize > 0
      && font == Some(FontHandle(fontPath, fontSize))
    }

    /** The defaults `__init__` assigns before it sets the real values;
        no font is loaded yet. */
    constructor ()
      ensures fontPath == "" && fontSize == 1 && font == None
    {
      fontPath := "";
      fontSize := 1;
      font := None;
    }

    /** `__load_font`: reload the font from the stored path and size. */
    method LoadFont()
      modifies this`font
      ensures font == Some(FontHandle(fontPath, fontSize))
      ensures fontPath == old(fontPath) && fontSize == old(fontSize)
    {
      font := Some(FontHandle(fontPath, fontSize));
    }

    /** The `font_path` setter: validate, store, reload. A rejected path
        changes nothing. */
    method SetFontPath(newPath: string, fs: FileSystem) returns (r: Outcome)
      modifies this
      ensures r == ValidateFontPath(newPath, fs)
      ensures r.Pass? ==> fontPath == newPath && fontSize == old(fontSize)
                          && font == Some(FontHandle(newPath, old(fontSize)))
      ensures r.Fail? ==> fontPath == old(fontPath) && fontSize == old(fontSize) && font == old(font)
      ensures old(Valid()) ==> Valid()
    {
      r := ValidateFontPath(newPath, fs);
      if r.Fail? {
        return;
      }
      fontPath := newPath;
      LoadFont();
    }

    /** The `font_size` setter: validate, store, reload. A rejected size
        changes nothing. */
    method SetFontSize(newSize: int) returns (r: Outcome)
      modifies this
      ensures r == ValidateFontSize(newSize)
      ensures r.Pass? ==> fontSize == newSize && fontPath == old(fontPath)
                          && font == Some(FontHandle(old(fontPath), newSize))
      ensures r.Fail? ==> fontPath == old(fontPath) && fontSize == old(fontSize) && font == old(font)
      ensures old(Valid()) ==> Valid()
    {
      r := ValidateFontSize(newSize);
      if r.Fail? {
        return;
      }
      fontSize := newSize;
      LoadFont();
    }

    /** The `font` setter: validates the path and then the size, and stores
        neither, so path, size and font are the same afterwards even when
        both are valid. */
    method SetFont(newPath: string, newSize: int, fs: FileSystem) returns (r: Outcome)
      ensures r == if ValidateFontPath(newPath, fs).Fail? then ValidateFontPath(newPath, fs)
                   else ValidateFontSize(newSize)
      ensures r == Pass <==> HasFontSuffix(newPath) && IsFile(fs, newPath) && newSize > 0
    {
      r := ValidateFontPath(newPath, fs);
      if r.Fail? {
        return;
      }
      r := ValidateFontSize(newSize);
    }

    /** `__init__(font_path, font_size)`: start from the defaults, set the
        path, then the size, then load the font. The first rejection is
        raised; after a successful construction the manager holds exactly
        the arguments and the font loaded from them. */
    static method Create(path: string, size: int, fs: FileSystem) returns (m: FontManager, r: Outcome)
      ensures fresh(m)
      ensures ValidateFontPath(path, fs).Fail? ==>
        r == ValidateFontPath(path, fs) && m.fontPath == "" && m.fontSize == 1 && m.font == None
      ensures ValidateFontPath(path, fs).Pass? ==> r == ValidateFontSize(size) && m.fontPath == path
      ensures r == Pass <==> HasFontSuffix(path) && IsFile(fs, path) && size > 0
      ensures r == Pass ==> m.Valid() && m.fontPath == path && m.fontSize == size
                            && m.font == Some(FontHandle(path, size))
    {
      m := new FontManager();
      r := m.SetFontPath(path, fs);
      if r.Fail? {
        return;
      }
      r := m.SetFontSize(size);
      if r.Fail? {
        return;
      }
      m.LoadFont();
    }
  }
}
