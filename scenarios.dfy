/**
  Client code that drives the three controllers through the situations the
  page meets, using nothing but their contracts.
*/
module Scenarios {
  import opened Wrappers
  import opened Text
  import opened Siblings
  import opened Form
  import opened Slider
  import opened Navbar

  /** Two quick clicks on "next" schedule two swaps; both show the image of
      the index current when they fire, so the first already shows the
      third image. */
  method SwapUsesIndexAtFireTime() {
    var s := new ImageSlider(ConfigImages, ConfigAutoSlideInterval, ConfigTransitionDuration, ConfigImages[0], 1);
    s.NextImage();
    s.NextImage();
    assert s.currentIndex == 2 && s.opacity == 0 && s.pendingSwaps == 2;
    s.FireSwap();
    assert s.src == "assets/image3.png" && s.opacity == 1;
    s.PrevImage();
    s.FireSwap();
    assert s.src == "assets/image2.jpeg" && s.pendingSwaps == 1;
  }

  /** Starting the auto-advance twice leaves two intervals running, and
      stopping clears only the one whose handle was stored last. */
  method SecondStartLeaksAnInterval() {
    var s := new ImageSlider(ConfigImages, ConfigAutoSlideInterval, ConfigTransitionDuration, ConfigImages[0], 1);
    s.Init(1);
    s.StartAutoSlide(2);
    s.StopAutoSlide();
    assert s.activeIntervals == {1};
    s.AutoSlideTick(1);
    assert s.currentIndex == 1;
    s.StopAutoSlide();
    assert s.activeIntervals == {1};
  }

  /** With a single image the buttons keep the index at 0. */
  method SingleImageStays() {
    var s := new ImageSlider(["only.png"], 5000, 1000, "only.png", 1);
    s.NextImage();
    assert s.currentIndex == 0;
    s.PrevImage();
    assert s.currentIndex == 0;
  }

  /** Validating an invalid name twice leaves one error message behind the
      input, then a valid name removes it and leaves the other sibling. */
  method ErrorsAreReplacedNotStacked() {
    var hint := Element({"hint"}, "Your full name");
    var name := new Field("a", {}, [hint]);
    var email := new Field("", {}, []);
    var message := new Field("", {}, []);
    var form := new ContactForm(name, email, message);
    NameTooShort();
    var ok := form.ValidateName();
    ok := form.ValidateName();
    assert !ok;
    assert name.siblings == [ErrorElement(NameError), hint];
    assert InputErrorClass in name.classes;
    name.value := "ab";
    NameLongEnough();
    ok := form.ValidateName();
    assert ok && name.siblings == [hint] && InputErrorClass !in name.classes;
  }

  /** A form with an invalid e-mail sends nothing and shows that field's
      error, whatever the other two fields hold. */
  method InvalidFormSendsNothing(n: string, e: string, m: string)
    requires !EmailValid(e)
  {
    var name := new Field(n, {}, []);
    var email := new Field(e, {}, []);
    var message := new Field(m, {}, []);
    var form := new ContactForm(name, email, message);
    var sent := form.HandleSubmit();
    assert !sent && form.pending == [];
    assert HasError(email.siblings);
  }

  /** A valid form sends the trimmed values and is emptied once the sender
      reports success. */
  method ValidFormIsSentAndEmptied(n: string, e: string, m: string)
    requires NameValid(n) && EmailValid(e) && MessageValid(m)
  {
    var name := new Field(n, {}, []);
    var email := new Field(e, {}, []);
    var message := new Field(m, {}, []);
    var form := new ContactForm(name, email, message);
    var sent := form.HandleSubmit();
    assert sent && form.pending == [FormData(Trim(n), Trim(e), Trim(m))];
    assert !HasError(name.siblings) && !HasError(email.siblings) && !HasError(message.siblings);
    assert form.banners == [];
    form.ResolveSubmission(true);
    assert form.pending == [] && name.value == "" && email.value == "" && message.value == "";
    assert form.banners == [Element({SuccessClass}, SuccessText)];
  }

  /** On failure the banner says so and the fields keep their values for a retry. */
  method FailedSendKeepsValues(n: string, e: string, m: string)
    requires NameValid(n) && EmailValid(e) && MessageValid(m)
  {
    var name := new Field(n, {}, []);
    var email := new Field(e, {}, []);
    var message := new Field(m, {}, []);
    var form := new ContactForm(name, email, message);
    var sent := form.HandleSubmit();
    assert form.banners == [] && |form.pending| == 1;
    form.ResolveSubmission(false);
    assert form.pending == [] && name.value == n && email.value == e && message.value == m;
    assert form.banners == [Element({ErrorClass}, FailureText)];
  }

  /** Scrolling past the threshold and back. */
  method ScrollDownAndUp() {
    var nav := new NavbarScrollEffect({"navbar"});
    nav.HandleScroll(50.0);
    assert nav.classes == {"navbar"};
    nav.HandleScroll(51.0);
    assert nav.classes == {"navbar", ScrolledClass};
    nav.HandleScroll(0.0);
    assert nav.classes == {"navbar"};
  }
}
