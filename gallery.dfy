/**
 * The Gallery screen (GalleryApp in components/Apps.tsx): a grid of images, a create view
 * whose prompt goes to the image generator, and a view of one image that can become the
 * wallpaper.
 */
module Gallery {
  import opened Wrappers
  import opened VirtualKeyboard
  import Gemini
  import DeviceApp

  datatype View = Grid | Create | Viewing

  /** The prompts the two preset buttons put in the input. */
  const WallPreset: string := "Android 2.3 wallpaper, green abstract tech"
  const IconsPreset: string := "Android 2.3 glossy icon set"

  class GalleryScreen {
    var view: View
    var selected: Option<string>
    var loading: bool
    var input: string

    /** The single-image view is only entered with an image selected. */
    ghost predicate Valid()
      reads this
    {
      view == Viewing ==> selected.Some?
    }

    constructor ()
      ensures Valid() && view == Grid && selected == None && !loading && input == ""
    {
      view := Grid;
      selected := None;
      loading := false;
      input := "";
    }

    /** The CREATE tile of the grid. */
    method OpenCreate()
      requires Valid() && view == Grid
      modifies this`view
      ensures Valid() && view == Create
    {
      view := Create;
    }

    /** A tile of the grid: the image is selected and shown. */
    method Pick(img: string)
      requires Valid() && view == Grid
      modifies this`view, this`selected
      ensures Valid() && view == Viewing && selected == Some(img)
    {
      selected := Some(img);
      view := Viewing;
    }

    /** Cancel in the create view, Back in the image view. */
    method ToGrid()
      requires Valid() && view != Grid
      modifies this`view
      ensures Valid() && view == Grid
    {
      view := Grid;
    }

    /** A preset button of the create view replaces the prompt. */
    method Preset(text: string)
      requires Valid() && view == Create && text in {WallPreset, IconsPreset}
      modifies this`input
      ensures Valid() && input == text
    {
      input := text;
    }

    /**
     * handleGenerate, up to the request: an empty prompt does nothing, any other (blank
     * ones included) is returned for the generator and the screen shows it is loading.
     */
    method StartGenerate() returns (prompt: Option<string>)
      requires Valid()
      modifies this`loading
      ensures Valid()
      ensures old(input) == "" ==> prompt == None && loading == old(loading)
      ensures old(input) != "" ==> prompt == Some(old(input)) && loading
    {
      if input == "" {
        return None;
      }
      loading := true;
      prompt := Some(input);
    }

    /**
     * handleGenerate, after the reply: a returned image goes in front of the device's
     * gallery, is selected and shown, and the prompt is cleared; otherwise only the
     * loading indicator goes.
     */
    method FinishGenerate(device: DeviceApp.Controller, reply: Gemini.ImageReply)
      requires device.Valid()
      requires Valid()
      modifies this, device`galleryImages
      ensures device.Valid()
      ensures Valid() && !loading
      ensures var url := Gemini.ImageUrl(reply);
        && (url.None? ==> view == old(view) && selected == old(selected) && input == old(input)
                          && device.galleryImages == old(device.galleryImages))
        && (url.Some? ==> view == Viewing && selected == url && input == ""
                          && device.galleryImages == [url.value] + old(device.galleryImages))
    {
      var result := Gemini.ImageUrl(reply);
      loading := false;
      if result.Some? {
        device.AddGalleryImage(result.value);
        selected := result;
        view := Viewing;
        input := "";
      }
    }

    /** A key of the virtual keyboard; ENTER starts a generation whatever the view. */
    method Key(key: string) returns (prompt: Option<string>)
      requires Valid()
      modifies this`input, this`loading
      ensures Valid()
      ensures var r := ApplyKey(old(input), key);
        && input == r.input
        && (prompt.Some? <==> r.enter && r.input != "")
        && (prompt.Some? ==> prompt.value == r.input && loading)
        && (prompt.None? ==> loading == old(loading))
    {
      var r := ApplyKey(input, key);
      input := r.input;
      prompt := None;
      if r.enter {
        prompt := StartGenerate();
      }
    }

    /** Set Wallpaper in the image view. */
    method SetWallpaper(device: DeviceApp.Controller)
      requires device.Valid()
      requires Valid() && view == Viewing
      modifies device`wallpaper
      ensures device.Valid()
      ensures device.wallpaper == selected.value
    {
      device.SetWallpaper(selected.value);
    }
  }
}
