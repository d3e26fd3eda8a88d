/** The personal-details step of sign-up, src/screens/auth/PersonalInfoScreen.tsx.
    The date of birth arrives from the calendar, either as the `selectedDate`
    route parameter or through the `onDateSelect` callback. */
module PersonalInfo {
  import opened Options

  const DatePlaceholder: string := "Date of birth"

  class PersonalInfoScreen {
    var firstName: string
    var lastName: string
    var dateOfBirth: string

    constructor ()
      ensures firstName == "" && lastName == "" && dateOfBirth == ""
      ensures !ContinueEnabled()
    {
      firstName := "";
      lastName := "";
      dateOfBirth := "";
    }

    /** Continue is enabled once both names and the date are filled in. */
    predicate ContinueEnabled()
      reads this
    {
      firstName != "" && lastName != "" && dateOfBirth != ""
    }

    method SetFirstName(text: string)
      modifies this`firstName
      ensures firstName == text
    {
      firstName := text;
    }

    method SetLastName(text: string)
      modifies this`lastName
      ensures lastName == text
    {
      lastName := text;
    }

    /** The effect on `route.params.selectedDate`: a non-empty value replaces
        the date, anything else leaves it. */
    method OnRouteParams(selectedDate: Option<string>)
      modifies this`dateOfBirth
      ensures selectedDate.Some? && selectedDate.value != "" ==> dateOfBirth == selectedDate.value
      ensures !(selectedDate.Some? && selectedDate.value != "") ==> dateOfBirth == old(dateOfBirth)
    {
      if selectedDate.Some? && selectedDate.value != "" {
        dateOfBirth := selectedDate.value;
      }
    }

    /** The `onDateSelect` callback handed to the calendar. */
    method OnDateSelect(date: string)
      modifies this`dateOfBirth
      ensures dateOfBirth == date
    {
      dateOfBirth := date;
    }

    /** The text of the date field: the date, or the placeholder while empty. */
    method DateFieldText() returns (text: string)
      ensures dateOfBirth != "" ==> text == dateOfBirth
      ensures dateOfBirth == "" ==> text == DatePlaceholder
      ensures text != ""
    {
      text := if dateOfBirth != "" then dateOfBirth else DatePlaceholder;
    }

    /** Pressing Continue moves on only when enabled. */
    method PressContinue() returns (proceeds: bool)
      ensures proceeds <==> firstName != "" && lastName != "" && dateOfBirth != ""
    {
      proceeds := ContinueEnabled();
    }
  }
}
