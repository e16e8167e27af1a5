/**
 * Rendering a diagnostic result: the final message chosen from the
 * bottleneck's result series, with named tokens substituted, and the
 * follow-up buttons.
 */
module Rendering {
  import opened Wrappers
  import opened Zones
  import opened PyStrings
  import opened Scoring

  /** The values substituted into the copy. */
  datatype TemplateVars = TemplateVars(expertName: string, product: string)

  /** A configured follow-up button: its action identifier and its label template. */
  datatype ButtonSpec = ButtonSpec(id: string, text: string)

  /** The copy authored for one bottleneck zone. */
  datatype ResultSeries = ResultSeries(messageConfirmation: string, messageTwist: string, buttons: seq<ButtonSpec>)

  /** A rendered inline button: its label and its callback data. */
  datatype Button = Button(text: string, callbackData: string)

  /** The authored content: DEFAULT_TEMPLATE, COMMON_COMPLAINTS and RESULT_SERIES_MAP. */
  datatype Content = Content(defaultVars: TemplateVars, complaints: map<Zone, string>, seriesMap: map<Zone, ResultSeries>)

  const ExpertToken := "{ЭКСПЕРТ}"
  const ProductToken := "{ПРОДУКТ}"
  const ComplaintToken := "{ЧАСТОЕ_ЖАЛОБНОЕ}"
  /** The complaint phrase used when the perceived zone has none configured. */
  const UnknownComplaint := "непонятная проблема"

  /** The placeholder shown when no series is authored for a zone; it names the zone. */
  function MissingSeriesNotice(z: Zone): (notice: string)
    ensures Contains(notice, ZoneName(z))
  {
    var prefix := "⚠️ Финальный текст для зоны '";
    var notice := prefix + ZoneName(z) + "' еще не прописан";
    assert notice[|prefix|..|prefix| + |ZoneName(z)|] == ZoneName(z);
    assert OccursAt(notice, ZoneName(z), |prefix|);
    notice
  }

  /** The message's substitutions, in the order they are applied: expert, product, complaint. */
  function Fill(template: string, vars: TemplateVars, complaint: string): string {
    var withExpert := ReplaceAll(template, ExpertToken, vars.expertName);
    var withProduct := ReplaceAll(withExpert, ProductToken, vars.product);
    ReplaceAll(withProduct, ComplaintToken, complaint)
  }

  /** A template that holds none of the three tokens is rendered verbatim. */
  lemma FillVerbatim(template: string, vars: TemplateVars, complaint: string)
    requires !Contains(template, ExpertToken)
    requires !Contains(template, ProductToken)
    requires !Contains(template, ComplaintToken)
    ensures Fill(template, vars, complaint) == template
  {
    ReplaceAllAbsent(template, ExpertToken, vars.expertName);
    ReplaceAllAbsent(template, ProductToken, vars.product);
    ReplaceAllAbsent(template, ComplaintToken, complaint);
  }

  /**
   * `build_final_message`: a visible notice when the bottleneck has no
   * series; otherwise the twist template with the perceived zone's
   * complaint phrase when the result is a twist with a perceived zone, and
   * the confirmation template with the complaint token erased when not.
   */
  method BuildFinalMessage(result: DiagnosticResult, templateVars: Option<TemplateVars>, content: Content)
    returns (message: string)
    ensures result.bottleneck !in content.seriesMap ==> message == MissingSeriesNotice(result.bottleneck)
    ensures result.bottleneck in content.seriesMap && result.twist && result.perceived.Some? ==>
      var p := result.perceived.value;
      message == Fill(content.seriesMap[result.bottleneck].messageTwist, templateVars.GetOr(content.defaultVars),
                      if p in content.complaints then content.complaints[p] else UnknownComplaint)
    ensures result.bottleneck in content.seriesMap && !(result.twist && result.perceived.Some?) ==>
      message == Fill(content.seriesMap[result.bottleneck].messageConfirmation, templateVars.GetOr(content.defaultVars), "")
  {
    var vars := templateVars.GetOr(content.defaultVars);
    if result.bottleneck !in content.seriesMap {
      return MissingSeriesNotice(result.bottleneck);
    }
    var series := content.seriesMap[result.bottleneck];
    var template, complaint;
    if result.twist && result.perceived.Some? {
      template := series.messageTwist;
      var p := result.perceived.value;
      complaint := if p in content.complaints then content.complaints[p] else UnknownComplaint;
    } else {
      template := series.messageConfirmation;
      complaint := "";
    }
    message := ReplaceAll(template, ExpertToken, vars.expertName);
    message := ReplaceAll(message, ProductToken, vars.product);
    if Contains(message, ComplaintToken) {
      message := ReplaceAll(message, ComplaintToken, complaint);
    } else {
      ReplaceAllAbsent(message, ComplaintToken, complaint);
    }
  }

  /**
   * `get_result_buttons`: no buttons when the bottleneck has no series;
   * otherwise one button per configured button, in order, whose callback
   * data is the configured id and whose label has the expert's name put in.
   */
  method GetResultButtons(result: DiagnosticResult, templateVars: Option<TemplateVars>, content: Content)
    returns (buttons: seq<Button>)
    ensures result.bottleneck !in content.seriesMap ==> buttons == []
    ensures result.bottleneck in content.seriesMap ==>
      var specs := content.seriesMap[result.bottleneck].buttons;
      && |buttons| == |specs|
      && forall i :: 0 <= i < |specs| ==>
           buttons[i] == Button(ReplaceAll(specs[i].text, ExpertToken, templateVars.GetOr(content.defaultVars).expertName),
                                specs[i].id)
  {
    var vars := templateVars.GetOr(content.defaultVars);
    if result.bottleneck !in content.seriesMap {
      return [];
    }
    var series := content.seriesMap[result.bottleneck];
    buttons := [];
    for i := 0 to |series.buttons|
      invariant |buttons| == i
      invariant forall j :: 0 <= j < i ==>
        buttons[j] == Button(ReplaceAll(series.buttons[j].text, ExpertToken, vars.expertName), series.buttons[j].id)
    {
      var btn := series.buttons[i];
      var text := ReplaceAll(btn.text, ExpertToken, vars.expertName);
      buttons := buttons + [Button(text, btn.id)];
    }
  }
}
