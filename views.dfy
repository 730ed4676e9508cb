/** What a list screen shows. Both the hotels, favourites and messages
    screens of the main page and the standalone favourites page choose
    with the same precedence: the loading notice, then the error, then the
    "nothing found" notice, then the list. */
module Views {

  datatype View<T> = Loading | ErrorText(message: string) | Empty | Items(items: seq<T>)

  function ChooseView<T>(loading: bool, error: string, items: seq<T>): (v: View<T>)
    ensures v.Loading? <==> loading
    ensures v.ErrorText? <==> !loading && error != ""
    ensures v.ErrorText? ==> v.message == error
    ensures v.Empty? <==> !loading && error == "" && items == []
    ensures v.Items? <==> !loading && error == "" && items != []
    ensures v.Items? ==> v.items == items
  {
    if loading then Loading
    else if error != "" then ErrorText(error)
    else if items == [] then Empty
    else Items(items)
  }
}
