/** The fixed text of the card markup: the document around the three places
    where the avatar address, the heading and the sub-message go. */
module CardText {
  /** The fixed text before the avatar address: doctype, head, the style
      sheet of the 1100x500 card and the opening of the avatar image tag. */
  const Prefix :=
      "\n"
    + "    <!DOCTYPE html>\n"
    + "    <html lang=\"pl\">\n"
    + "    <head>\n"
    + "        <meta charset=\"UTF-8\">\n"
    + "        <meta name=\"viewport\" content=\"width=device-width, initial-scale=1.0\">\n"
    + "        <title>Welcome / Bye</title>\n"
    + "        <link href=\"https://fonts.googleapis.com/css2?family=Roboto:wght@400;700&display=swap\" rel=\"stylesheet\">\n"
    + "        <style>\n"
    + "            body {\n"
    + "                font-family: 'Roboto', sans-serif;\n"
    + "                margin: 0;\n"
    + "                padding: 0;\n"
    + "                background-image: url('https://i.imgur.com/CUAVXwI.png');\n"
    + "                background-size: cover;\n"
    + "                background-position: center;\n"
    + "                width: 1100px;\n"
    + "                height: 500px;\n"
    + "                display: flex;\n"
    + "                justify-content: center;\n"
    + "                align-items: center;\n"
    + "            }\n"
    + "            .container {\n"
    + "                text-align: center;\n"
    + "                padding: 40px;\n"
    + "                border-radius: 10px;\n"
    + "                width: 90%;\n"
    + "                max-width: 600px;\n"
    + "            }\n"
    + "            .avatar {\n"
    + "                width: 175px;\n"
    + "                height: 175px;\n"
    + "                border-radius: 50%;\n"
    + "                margin-bottom: 30px;\n"
    + "            }\n"
    + "            .message {\n"
    + "                font-size: 46px;\n"
    + "                font-weight: 700;\n"
    + "                color: #fff;\n"
    + "            }\n"
    + "            .sub-message {\n"
    + "                font-size: 16px;\n"
    + "                margin-top: 15px;\n"
    + "                color: #ddd;\n"
    + "                font-weight: 300;\n"
    + "            }\n"
    + "        </style>\n"
    + "    </head>\n"
    + "    <body>\n"
    + "        <div class=\"container\">\n"
    + "            <img src=\""
  // The literals below are split into short pieces (a markup character on
  // its own, a sentence in parts) to keep the solver's facts about each
  // literal small; the concatenation is the template's text unchanged.

  /** From the closing quote of the image source to the opening of the heading. */
  const AvatarClose := "\"" + " alt=\"Avatar\" class=\"avatar\">\n"
    + "            <div class=\"message\">"
  /** Between the "<kind>" and "<nick>" parts of the heading. */
  const HeadingSeparator := ", "
  /** From the end of the heading to the opening of the sub-message. */
  const HeadingClose := "<" + "/div>\n" + "            <div class=\"sub-message\"" + ">"
  /** From the end of the sub-message to the end of the document. */
  const Suffix := "<" + "/div>\n        </div>\n" + "    </body>\n    </html>\n    "

  const FarewellText := "It is a pity that " + "you are leaving us. " + "We hope you will come " + "back to us again someday."
  const WelcomeText := "We are happy to " + "welcome you! " + "Enjoy your time with us."
}
